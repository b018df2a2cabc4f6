/**
 * Replacing a computer's reviewed containers by containers of its configured image, in a way that an
 * interruption after any removal or creation can be picked up again.
 * Models the lifecycle replacement of packages/cli/src/docker.ts.
 */
module ContainerReplacement {
  import opened Wrappers
  import opened Sorting
  import opened ManagedRuntime

  datatype Direction = ToRunning | ToStopped
  datatype Role = Role(name: string, role: string, topologyVersion: Option<string>)

  /** A container of the labelled inventory; `intact` when its ownership labels fit its role. */
  datatype Item = Item(binding: Binding, intact: bool)
  datatype Transition = Transition(sourceIds: seq<string>, targetIds: seq<string>)

  function RoleName(role: Role): string { role.name }
  function ItemBinding(item: Item): Binding { item.binding }
  function ItemId(item: Item): string { item.binding.id }
  function ItemName(item: Item): string { item.binding.name }

  /** allowedTransitionStatus */
  predicate Allowed(status: Status, direction: Direction, target: bool) {
    match direction
    case ToStopped => status in {IsCreated, IsExited}
    case ToRunning => if target then status in {IsCreated, IsExited, IsRunning} else status == IsRunning
  }

  // ----- what an owned container may be during a transition -----

  predicate Reviewed(source: seq<Binding>, id: string) {
    exists s :: s in source && s.id == id
  }

  /** A reviewed source, exactly as it was reviewed. */
  predicate IsSource(source: seq<Binding>, direction: Direction, item: Item) {
    item.binding in source && item.intact && Allowed(item.binding.status, direction, false)
  }

  predicate FitsRole(roles: seq<Role>, binding: Binding) {
    exists r :: r in roles && r.name == binding.name && r.role == binding.role
                && (r.topologyVersion.Some? ==> r.topologyVersion == binding.topologyVersion)
  }

  /** An owned container of the configured image under one of the expected names. */
  predicate IsTarget(source: seq<Binding>, roles: seq<Role>, contentId: Option<string>, direction: Direction,
                     item: Item)
  {
    && !Reviewed(source, item.binding.id)
    && FitsRole(roles, item.binding) && item.intact
    && contentId.Some? && item.binding.imageId == contentId.value
    && Allowed(item.binding.status, direction, true)
  }

  predicate ListsName(inventory: seq<Item>, name: string) {
    exists item :: item in inventory && item.binding.name == name
  }

  /** No expected or reviewed name is taken by a container outside the inventory. */
  predicate NamesFree(source: seq<Binding>, roles: seq<Role>, inventory: seq<Item>, foreign: set<string>) {
    && (forall s :: s in source ==> ListsName(inventory, s.name) || s.name !in foreign)
    && (forall r :: r in roles ==> ListsName(inventory, r.name) || r.name !in foreign)
  }

  predicate UniqueSource(source: seq<Binding>) {
    UniqueBy(source, BindingId) && UniqueBy(source, BindingName)
  }

  predicate UniqueInventory(inventory: seq<Item>) {
    UniqueBy(inventory, ItemId) && UniqueBy(inventory, ItemName)
  }

  /** The inventory is partitioned into unchanged reviewed sources and exact targets. */
  predicate Transitional(source: seq<Binding>, roles: seq<Role>, contentId: Option<string>, direction: Direction,
                         inventory: seq<Item>, foreign: set<string>) {
    && UniqueSource(source) && UniqueInventory(inventory)
    && (forall item :: item in inventory ==>
          if Reviewed(source, item.binding.id) then IsSource(source, direction, item)
          else IsTarget(source, roles, contentId, direction, item))
    && NamesFree(source, roles, inventory, foreign)
  }

  function SourceIds(source: seq<Binding>, inventory: seq<Item>): seq<string> {
    if inventory == [] then []
    else SourceIds(source, inventory[..|inventory| - 1])
         + if Reviewed(source, inventory[|inventory| - 1].binding.id) then [inventory[|inventory| - 1].binding.id]
           else []
  }

  function TargetIds(source: seq<Binding>, inventory: seq<Item>): seq<string> {
    if inventory == [] then []
    else TargetIds(source, inventory[..|inventory| - 1])
         + if Reviewed(source, inventory[|inventory| - 1].binding.id) then []
           else [inventory[|inventory| - 1].binding.id]
  }

  /** Source and target identifiers partition the inventory. */
  lemma {:induction false} IdsPartition(source: seq<Binding>, inventory: seq<Item>)
    ensures multiset(SourceIds(source, inventory)) + multiset(TargetIds(source, inventory))
              == multiset(Map(inventory, ItemId))
  {
    if inventory != [] {
      var before := inventory[..|inventory| - 1];
      IdsSplit(source, inventory);
      hide SourceIds, TargetIds, Map, Reviewed;
      IdsPartition(source, before);
      var id := inventory[|inventory| - 1].binding.id;
      AppendMultiset(SourceIds(source, before), id);
      AppendMultiset(TargetIds(source, before), id);
      AppendMultiset(Map(before, ItemId), id);
    }
  }

  lemma IdsSplit(source: seq<Binding>, inventory: seq<Item>)
    requires inventory != []
    ensures var before, id := inventory[..|inventory| - 1], inventory[|inventory| - 1].binding.id;
            && Map(inventory, ItemId) == Map(before, ItemId) + [id]
            && SourceIds(source, inventory)
                 == (if Reviewed(source, id) then SourceIds(source, before) + [id] else SourceIds(source, before))
            && TargetIds(source, inventory)
                 == (if Reviewed(source, id) then TargetIds(source, before) else TargetIds(source, before) + [id])
  {
    var before := inventory[..|inventory| - 1];
    EmptySides(SourceIds(source, before));
    EmptySides(TargetIds(source, before));
  }

  lemma {:induction false} IdsAreReviewed(source: seq<Binding>, inventory: seq<Item>)
    ensures forall id :: id in SourceIds(source, inventory) ==> Reviewed(source, id)
    ensures forall id :: id in TargetIds(source, inventory) ==> !Reviewed(source, id)
  {
    if inventory != [] {
      IdsAreReviewed(source, inventory[..|inventory| - 1]);
    }
  }

  /** What the two sorted identifier lists of an inspection tell about the inventory. */
  lemma InspectionFacts(source: seq<Binding>, inventory: seq<Item>, t: Transition)
    requires t == Transition(Sort(SourceIds(source, inventory), TextLe), Sort(TargetIds(source, inventory), TextLe))
    ensures forall id :: id in t.sourceIds ==> Reviewed(source, id)
    ensures forall item :: item in inventory ==> (item.binding.id in t.sourceIds <==> Reviewed(source, item.binding.id))
    ensures t.sourceIds == [] <==> OnlyTargets(source, inventory)
    ensures t.targetIds == [] <==> forall item :: item in inventory ==> Reviewed(source, item.binding.id)
  {
    hide Reviewed;
    IdsAreReviewed(source, inventory);
    NoSourceIds(source, inventory);
    SortKeepsElements(SourceIds(source, inventory), TextLe);
    SortKeepsElements(TargetIds(source, inventory), TextLe);
    forall item | item in inventory {
      SourceIdListed(source, inventory, item);
    }
    hide SourceIds, TargetIds;
  }

  lemma {:induction false} NoSourceIds(source: seq<Binding>, inventory: seq<Item>)
    ensures SourceIds(source, inventory) == [] <==>
              forall item :: item in inventory ==> !Reviewed(source, item.binding.id)
    ensures TargetIds(source, inventory) == [] <==>
              forall item :: item in inventory ==> Reviewed(source, item.binding.id)
  {
    if inventory != [] {
      NoSourceIds(source, inventory[..|inventory| - 1]);
      assert inventory == inventory[..|inventory| - 1] + [inventory[|inventory| - 1]];
    }
  }

  lemma {:induction false} SourceIdListed(source: seq<Binding>, inventory: seq<Item>, item: Item)
    requires item in inventory
    ensures Reviewed(source, item.binding.id) ==> item.binding.id in SourceIds(source, inventory)
    ensures !Reviewed(source, item.binding.id) ==> item.binding.id in TargetIds(source, inventory)
  {
    if item != inventory[|inventory| - 1] {
      assert inventory == inventory[..|inventory| - 1] + [inventory[|inventory| - 1]];
      SourceIdListed(source, inventory[..|inventory| - 1], item);
    }
  }

  // ----- removal -----

  function Without(inventory: seq<Item>, ids: set<string>): seq<Item> {
    if inventory == [] then []
    else (if inventory[0].binding.id in ids then [] else [inventory[0]]) + Without(inventory[1..], ids)
  }

  lemma {:induction false} WithoutKeeps(inventory: seq<Item>, ids: set<string>, item: Item)
    ensures item in Without(inventory, ids) <==> item in inventory && item.binding.id !in ids
  {
    if inventory != [] {
      WithoutKeeps(inventory[1..], ids, item);
      assert inventory == [inventory[0]] + inventory[1..];
    }
  }

  lemma {:induction false} WithoutKeepsUnique<K(!new)>(inventory: seq<Item>, ids: set<string>, key: Item -> K)
    requires UniqueBy(inventory, key)
    ensures UniqueBy(Without(inventory, ids), key)
  {
    if inventory != [] {
      var rest := Without(inventory[1..], ids);
      TailUnique(inventory, key);
      WithoutKeepsUnique(inventory[1..], ids, key);
      forall item | item in rest
        ensures key(item) != key(inventory[0])
      {
        WithoutKeeps(inventory[1..], ids, item);
      }
      PrependUnique(inventory[0], rest, key);
      assert [] + rest == rest;
    }
  }

  /** Removing containers keeps the state transitional: removed names become free. */
  lemma RemovalStaysTransitional(source: seq<Binding>, roles: seq<Role>, contentId: Option<string>,
                                 direction: Direction, inventory: seq<Item>, foreign: set<string>, ids: set<string>)
    requires Transitional(source, roles, contentId, direction, inventory, foreign)
    requires forall item :: item in inventory ==> item.binding.name !in foreign
    ensures Transitional(source, roles, contentId, direction, Without(inventory, ids), foreign)
    ensures forall item :: item in Without(inventory, ids) ==> item.binding.name !in foreign
  {
    hide IsSource, IsTarget, Reviewed;
    var after := Without(inventory, ids);
    forall item {
      WithoutKeeps(inventory, ids, item);
    }
    WithoutKeepsUnique(inventory, ids, ItemId);
    WithoutKeepsUnique(inventory, ids, ItemName);
    forall name | ListsName(inventory, name) || name !in foreign
      ensures ListsName(after, name) || name !in foreign
    {
      if ListsName(inventory, name) {
        var item :| item in inventory && item.binding.name == name;
      }
    }
  }

  // ----- creation -----

  function MaxLength(ids: seq<string>): nat {
    if ids == [] then 0 else if |ids[0]| > MaxLength(ids[1..]) then |ids[0]| else MaxLength(ids[1..])
  }

  /** An identifier Docker has not used yet. */
  function FreshId(avoid: seq<string>, k: nat): string {
    seq(MaxLength(avoid) + 1 + k, _ => 'f')
  }

  lemma {:induction false} FreshIdIsFresh(avoid: seq<string>, k: nat)
    ensures FreshId(avoid, k) !in avoid
  {
    LengthsBounded(avoid);
  }

  lemma {:induction false} LengthsBounded(ids: seq<string>)
    ensures forall id :: id in ids ==> |id| <= MaxLength(ids)
  {
    if ids != [] {
      LengthsBounded(ids[1..]);
      assert ids == [ids[0]] + ids[1..];
    }
  }

  function FinalStatus(direction: Direction, status: Status): Status {
    if direction == ToRunning then IsRunning else status
  }

  function FindName(inventory: seq<Item>, name: string): Option<Item> {
    if inventory == [] then None
    else if inventory[0].binding.name == name then Some(inventory[0])
    else FindName(inventory[1..], name)
  }

  lemma {:induction false} FindNameFinds(inventory: seq<Item>, name: string)
    ensures match FindName(inventory, name)
            case Some(item) => item in inventory && item.binding.name == name
            case None => !ListsName(inventory, name)
  {
    if inventory != [] {
      FindNameFinds(inventory[1..], name);
      assert inventory == [inventory[0]] + inventory[1..];
    }
  }

  /** What Compose leaves for one expected name: the container that is there, or a new one. */
  function Composed(inventory: seq<Item>, role: Role, image: string, direction: Direction, id: string): Item {
    match FindName(inventory, role.name)
    case Some(item) => item.(binding := item.binding.(status := FinalStatus(direction, item.binding.status)))
    case None =>
      var status := if direction == ToRunning then IsRunning else IsCreated;
      Item(Binding(role.name, id, status, image, role.role, role.topologyVersion), true)
  }

  /** What a finished Compose run leaves, in the order of the expected names. */
  function ComposeSome(inventory: seq<Item>, roles: seq<Role>, image: string, direction: Direction,
                       avoid: seq<string>): (r: seq<Item>)
    ensures |r| == |roles|
    ensures forall k :: 0 <= k < |roles| ==> r[k] == Composed(inventory, roles[k], image, direction, FreshId(avoid, k))
  {
    seq(|roles|, k requires 0 <= k < |roles| => Composed(inventory, roles[k], image, direction, FreshId(avoid, k)))
  }

  /** Only targets are left, one under every expected name. */
  ghost predicate Replaced(source: seq<Binding>, roles: seq<Role>, contentId: Option<string>, direction: Direction,
                           inventory: seq<Item>)
  {
    && |inventory| == |roles|
    && (forall k :: 0 <= k < |roles| ==> inventory[k].binding.name == roles[k].name)
    && forall item :: item in inventory ==> IsTarget(source, roles, contentId, direction, item)
  }

  ghost predicate OnlyTargets(source: seq<Binding>, inventory: seq<Item>) {
    forall item :: item in inventory ==> !Reviewed(source, item.binding.id)
  }

  function Avoided(source: seq<Binding>, inventory: seq<Item>): seq<string> {
    Map(source, BindingId) + Map(inventory, ItemId)
  }

  lemma AvoidsReviewed(source: seq<Binding>, inventory: seq<Item>, k: nat)
    ensures !Reviewed(source, FreshId(Avoided(source, inventory), k))
    ensures forall item :: item in inventory ==> item.binding.id != FreshId(Avoided(source, inventory), k)
  {
    var avoid := Avoided(source, inventory);
    FreshIdIsFresh(avoid, k);
    forall s | s in source
      ensures s.id != FreshId(avoid, k)
    {
      var i :| 0 <= i < |source| && source[i] == s;
      assert avoid[i] == s.id;
    }
    forall item | item in inventory
      ensures item.binding.id != FreshId(avoid, k)
    {
      var i :| 0 <= i < |inventory| && inventory[i] == item;
      assert avoid[|source| + i] == item.binding.id;
    }
  }

  lemma ComposedIsTarget(source: seq<Binding>, roles: seq<Role>, image: string, direction: Direction,
                         inventory: seq<Item>, k: nat)
    requires forall item :: item in inventory ==> IsTarget(source, roles, Some(image), direction, item)
    requires k < |roles|
    ensures IsTarget(source, roles, Some(image), direction,
                     Composed(inventory, roles[k], image, direction, FreshId(Avoided(source, inventory), k)))
    ensures Composed(inventory, roles[k], image, direction, FreshId(Avoided(source, inventory), k)).binding.name
              == roles[k].name
  {
    FindNameFinds(inventory, roles[k].name);
    AvoidsReviewed(source, inventory, k);
    var made := Composed(inventory, roles[k], image, direction, FreshId(Avoided(source, inventory), k));
    match FindName(inventory, roles[k].name)
    case Some(item) =>
      assert FitsRole(roles, made.binding) by {
        var r :| r in roles && r.name == item.binding.name && r.role == item.binding.role
                 && (r.topologyVersion.Some? ==> r.topologyVersion == item.binding.topologyVersion);
        assert r.name == made.binding.name && r.role == made.binding.role;
      }
    case None =>
      assert roles[k] in roles;
  }

  lemma ComposedIdsUnique(source: seq<Binding>, roles: seq<Role>, image: string, direction: Direction,
                          inventory: seq<Item>)
    requires UniqueBy(roles, RoleName) && UniqueInventory(inventory)
    ensures UniqueInventory(ComposeSome(inventory, roles, image, direction, Avoided(source, inventory)))
  {
    var avoid := Avoided(source, inventory);
    var made := ComposeSome(inventory, roles, image, direction, avoid);
    forall i, j | 0 <= i < j < |made|
      ensures ItemName(made[i]) != ItemName(made[j]) && ItemId(made[i]) != ItemId(made[j])
    {
      assert RoleName(roles[i]) != RoleName(roles[j]);
      FindNameFinds(inventory, roles[i].name);
      FindNameFinds(inventory, roles[j].name);
      AvoidsReviewed(source, inventory, i);
      AvoidsReviewed(source, inventory, j);
      assert |FreshId(avoid, i)| != |FreshId(avoid, j)|;
      var x, y := FindName(inventory, roles[i].name), FindName(inventory, roles[j].name);
      if x.Some? && y.Some? {
        var m :| 0 <= m < |inventory| && inventory[m] == x.value;
        var n :| 0 <= n < |inventory| && inventory[n] == y.value;
        assert ItemId(inventory[m]) != ItemId(inventory[n]);
      }
    }
  }

  /** A finished Compose run leaves exactly the targets, and the state stays transitional. */
  lemma ComposeReplaces(source: seq<Binding>, roles: seq<Role>, image: string, direction: Direction,
                        inventory: seq<Item>, foreign: set<string>)
    requires Transitional(source, roles, Some(image), direction, inventory, foreign) && OnlyTargets(source, inventory)
    requires UniqueBy(roles, RoleName) && forall r :: r in roles ==> r.name !in foreign
    ensures var made := ComposeSome(inventory, roles, image, direction, Avoided(source, inventory));
            && Replaced(source, roles, Some(image), direction, made)
            && Transitional(source, roles, Some(image), direction, made, foreign)
            && forall item :: item in made ==> item.binding.name !in foreign
  {
    hide Composed, IsTarget, FitsRole, Avoided, FreshId;
    var made := ComposeSome(inventory, roles, image, direction, Avoided(source, inventory));
    forall k | 0 <= k < |made|
      ensures IsTarget(source, roles, Some(image), direction, made[k]) && made[k].binding.name == roles[k].name
    {
      ComposedIsTarget(source, roles, image, direction, inventory, k);
    }
    ComposedIdsUnique(source, roles, image, direction, inventory);
    ReplacedTransitional(source, roles, image, direction, inventory, made, foreign);
  }

  lemma ReplacedTransitional(source: seq<Binding>, roles: seq<Role>, image: string, direction: Direction,
                             inventory: seq<Item>, made: seq<Item>, foreign: set<string>)
    requires Transitional(source, roles, Some(image), direction, inventory, foreign) && OnlyTargets(source, inventory)
    requires Replaced(source, roles, Some(image), direction, made) && UniqueInventory(made)
    requires forall r :: r in roles ==> r.name !in foreign
    ensures Transitional(source, roles, Some(image), direction, made, foreign)
    ensures forall item :: item in made ==> item.binding.name !in foreign
  {
    forall s | s in source
      ensures s.name !in foreign || ListsName(made, s.name)
    {
      if ListsName(inventory, s.name) {
        var item :| item in inventory && item.binding.name == s.name;
        var r :| r in roles && r.name == item.binding.name;
      }
    }
    forall item | item in made
      ensures item.binding.name !in foreign
    {
      var k :| 0 <= k < |made| && made[k] == item;
      assert roles[k] in roles;
    }
  }

  // ----- the replacement as it runs -----

  function IntactItem(binding: Binding): Item { Item(binding, true) }

  /** The unchanged reviewed sources alone are a transition that has not begun. */
  lemma BeginsTransitional(source: seq<Binding>, roles: seq<Role>, contentId: Option<string>, direction: Direction,
                           foreign: set<string>)
    requires UniqueSource(source)
             && forall s :: s in source ==> Allowed(s.status, direction, false) && s.name !in foreign
    requires forall r :: r in roles ==> r.name !in foreign
    ensures Transitional(source, roles, contentId, direction, Map(source, IntactItem), foreign)
    ensures Map(Map(source, IntactItem), ItemBinding) == source
    ensures forall item :: item in Map(source, IntactItem) ==> item.binding in source
  {
    var inventory := Map(source, IntactItem);
    forall i, j | 0 <= i < j < |inventory|
      ensures ItemId(inventory[i]) != ItemId(inventory[j]) && ItemName(inventory[i]) != ItemName(inventory[j])
    {
      assert BindingId(source[i]) != BindingId(source[j]) && BindingName(source[i]) != BindingName(source[j]);
    }
    forall item | item in inventory
      ensures item.binding in source && IsSource(source, direction, item) && Reviewed(source, item.binding.id)
    {
      var i :| 0 <= i < |source| && inventory[i] == item;
      assert item.binding == source[i];
    }
  }

  /**
   * What the operation itself may have left: reviewed sources, and containers created from the bytes of
   * the configured reference, none of which has been started where they are to stay stopped.
   */
  predicate Left(source: seq<Binding>, roles: seq<Role>, image: string, direction: Direction, inventory: seq<Item>,
                 foreign: set<string>) {
    && Transitional(source, roles, Some(image), direction, inventory, foreign)
    && forall item :: item in inventory && !Reviewed(source, item.binding.id) && direction == ToStopped ==>
         item.binding.status == IsCreated
  }

  predicate NothingCreated(source: seq<Binding>, inventory: seq<Item>) {
    forall item :: item in inventory ==> Reviewed(source, item.binding.id)
  }

  /**
   * From what it left, the operation may be run again: nothing has been created, or the configuration is
   * pinned to the bytes that are created and, without reviewed sources, the group is not in mixed states.
   */
  predicate Rerunnable(source: seq<Binding>, roles: seq<Role>, contentId: Option<string>, image: string,
                       inventory: seq<Item>)
  {
    || NothingCreated(source, inventory)
    || (contentId == Some(image)
        && (source != [] || |inventory| != |roles| || Uniform(Map(inventory, ItemBinding))))
  }

  /** The check accepts what was left exactly when nothing was created or the created bytes are pinned. */
  lemma CheckAcceptsLeft(source: seq<Binding>, roles: seq<Role>, contentId: Option<string>, image: string,
                         direction: Direction, inventory: seq<Item>, foreign: set<string>)
    requires Transitional(source, roles, Some(image), direction, inventory, foreign)
    ensures Transitional(source, roles, contentId, direction, inventory, foreign)
        <==> NothingCreated(source, inventory) || contentId == Some(image)
  {
    hide NamesFree, FitsRole;
    if !NothingCreated(source, inventory) {
      var item :| item in inventory && !Reviewed(source, item.binding.id);
      assert IsTarget(source, roles, Some(image), direction, item);
    }
  }

  const TWO_ROLES := [Role("a", "computer", None), Role("b", "viewer", None)]

  lemma TwoRolesFit(item: Item)
    requires item.binding.topologyVersion == None
    requires (item.binding.name == "a" && item.binding.role == "computer")
             || (item.binding.name == "b" && item.binding.role == "viewer")
    ensures FitsRole(TWO_ROLES, item.binding)
  {
    assert TWO_ROLES[0] in TWO_ROLES && TWO_ROLES[1] in TWO_ROLES;
  }

  /** The source is gone and one of two containers of an unpinned image is created: no rerun gets past the check. */
  lemma UnpinnedCreationIsStuck() returns (source: seq<Binding>, inventory: seq<Item>)
    ensures Left(source, TWO_ROLES, "bytes", ToStopped, inventory, {})
    ensures !Transitional(source, TWO_ROLES, None, ToStopped, inventory, {})
    ensures !Rerunnable(source, TWO_ROLES, None, "bytes", inventory)
  {
    source := [Binding("a", "1", IsExited, "old", "computer", None)];
    inventory := [Item(Binding("a", "2", IsCreated, "bytes", "computer", None), true)];
    TwoRolesFit(inventory[0]);
    hide FitsRole;
    assert inventory[0] in inventory && !Reviewed(source, inventory[0].binding.id);
  }

  /** Without reviewed sources two exact targets, one running and one only created, are refused. */
  lemma MixedTargetsAreRefused() returns (inventory: seq<Item>)
    ensures Left([], TWO_ROLES, "bytes", ToRunning, inventory, {})
    ensures !Keepable(TWO_ROLES, Some("bytes"), ToRunning, inventory, {})
    ensures !Rerunnable([], TWO_ROLES, Some("bytes"), "bytes", inventory)
  {
    inventory := [Item(Binding("a", "1", IsRunning, "bytes", "computer", None), true),
                  Item(Binding("b", "2", IsCreated, "bytes", "viewer", None), true)];
    TwoRolesFit(inventory[0]);
    TwoRolesFit(inventory[1]);
    hide FitsRole;
    assert inventory[0] in inventory;
    var bindings := Map(inventory, ItemBinding);
    assert bindings[0].status != bindings[1].status;
  }

  lemma LeftAfterRemoval(source: seq<Binding>, roles: seq<Role>, image: string, direction: Direction,
                         inventory: seq<Item>, foreign: set<string>, ids: set<string>)
    requires Left(source, roles, image, direction, inventory, foreign)
    requires forall item :: item in inventory ==> item.binding.name !in foreign
    ensures Left(source, roles, image, direction, Without(inventory, ids), foreign)
    ensures forall item :: item in Without(inventory, ids) ==> item.binding.name !in foreign
  {
    RemovalStaysTransitional(source, roles, Some(image), direction, inventory, foreign, ids);
    forall item {
      WithoutKeeps(inventory, ids, item);
    }
  }

  lemma LeftAfterCompose(source: seq<Binding>, roles: seq<Role>, image: string, direction: Direction,
                         inventory: seq<Item>, foreign: set<string>)
    requires Left(source, roles, image, direction, inventory, foreign) && OnlyTargets(source, inventory)
    requires UniqueBy(roles, RoleName) && forall r :: r in roles ==> r.name !in foreign
    ensures var made := ComposeSome(inventory, roles, image, direction, Avoided(source, inventory));
            && Replaced(source, roles, Some(image), direction, made)
            && Left(source, roles, image, direction, made, foreign)
            && (forall item :: item in made ==> item.binding.name !in foreign)
            && (direction == ToStopped ==> forall item :: item in made ==> item.binding.status == IsCreated)
  {
    ComposeReplaces(source, roles, image, direction, inventory, foreign);
    var made := ComposeSome(inventory, roles, image, direction, Avoided(source, inventory));
    hide Transitional, Replaced, Avoided, FreshId, Reviewed;
    forall k | 0 <= k < |made| && direction == ToStopped
      ensures made[k].binding.status == IsCreated
    {
      FindNameFinds(inventory, roles[k].name);
    }
  }

  /** Names of expected roles are not taken elsewhere: the inventory has them, or nobody has. */
  lemma RoleNamesFree(source: seq<Binding>, roles: seq<Role>, inventory: seq<Item>, foreign: set<string>)
    requires NamesFree(source, roles, inventory, foreign)
             && forall item :: item in inventory ==> item.binding.name !in foreign
    ensures forall r :: r in roles ==> r.name !in foreign
  {
  }

  /** No expected name is taken elsewhere, and what is there is an acceptable group of exact targets. */
  predicate Keepable(roles: seq<Role>, contentId: Option<string>, direction: Direction, inventory: seq<Item>,
                     foreign: set<string>)
  {
    && (forall r :: r in roles ==> ListsName(inventory, r.name) || r.name !in foreign)
    && (forall item :: item in inventory ==> IsTarget([], roles, contentId, direction, item))
    && (|inventory| != |roles| || Uniform(Map(inventory, ItemBinding)))
  }

  /** A container under an expected name that fails its ownership assertion. */
  predicate Misfit(roles: seq<Role>, item: Item) {
    item.binding.name in Map(roles, RoleName) && !(FitsRole(roles, item.binding) && item.intact)
  }

  predicate AllPinned(contentId: Option<string>, direction: Direction, containers: seq<Binding>) {
    contentId.Some?
      && forall b :: b in containers ==> b.imageId == contentId.value && Allowed(b.status, direction, true)
  }

  /** The checks of the source, one container at a time, are the acceptable group. */
  lemma UnboundVerdict(roles: seq<Role>, contentId: Option<string>, direction: Direction, inventory: seq<Item>,
                       foreign: set<string>)
    ensures Keepable(roles, contentId, direction, inventory, foreign)
        <==> && (forall r :: r in roles ==> ListsName(inventory, r.name) || r.name !in foreign)
             && (forall item :: item in inventory ==> !Misfit(roles, item) && item.binding.name in Map(roles, RoleName))
             && (inventory == [] || AllPinned(contentId, direction, Map(inventory, ItemBinding)))
             && (|inventory| != |roles| || Uniform(Map(inventory, ItemBinding)))
  {
    ObservedNames(roles, inventory);
    hide Uniform, ListsName;
    if inventory != [] { assert inventory[0] in inventory; }
    forall item | item in inventory
      ensures IsTarget([], roles, contentId, direction, item)
          <==> && !Misfit(roles, item) && item.binding.name in Map(roles, RoleName)
               && contentId.Some? && item.binding.imageId == contentId.value
               && Allowed(item.binding.status, direction, true)
    {
    }
  }

  class Docker {
    /** The reviewed source containers of the journalled plan, and the target configuration. */
    const source: seq<Binding>
    const roles: seq<Role>
    /** The bytes the configuration is pinned to, if it is, and the bytes its reference names. */
    const contentId: Option<string>
    const image: string
    const direction: Direction
    /** When false, no effect fails and the process does not die. */
    var faulty: bool
    var inventory: seq<Item>
    /** Container names held outside the labelled inventory. */
    var foreign: set<string>
    var controlNetwork: bool
    var workspaceNetwork: bool

    ghost predicate Valid()
      reads this`inventory, this`foreign
    {
      && UniqueInventory(inventory) && UniqueBy(roles, RoleName)
      && forall item :: item in inventory ==> item.binding.name !in foreign
    }

    ghost predicate Resumable()
      reads this`inventory, this`foreign
    {
      Valid() && Left(source, roles, image, direction, inventory, foreign)
    }

    /** The operation may be run again from here. */
    ghost predicate CanRerun()
      reads this`inventory
    {
      Rerunnable(source, roles, contentId, image, inventory)
    }

    /** Where a replacement begins: the reviewed sources are there, unchanged, and no name is taken. */
    constructor (source: seq<Binding>, roles: seq<Role>, contentId: Option<string>, image: string, direction: Direction,
                 foreign: set<string>)
      requires UniqueSource(source) && UniqueBy(roles, RoleName)
      requires forall s :: s in source ==> Allowed(s.status, direction, false) && s.name !in foreign
      requires forall r :: r in roles ==> r.name !in foreign
      ensures this.source == source && this.roles == roles && this.direction == direction
      ensures this.contentId == contentId && this.image == image
      ensures Resumable() && CanRerun() && this.foreign == foreign && Map(inventory, ItemBinding) == source
    {
      this.source, this.roles, this.contentId, this.image, this.direction := source, roles, contentId, image, direction;
      this.foreign, faulty, controlNetwork, workspaceNetwork := foreign, true, true, true;
      inventory := Map(source, IntactItem);
      new;
      BeginsTransitional(source, roles, Some(image), direction, foreign);
    }

    /** The partition is the whole inventory: reviewed sources and exact targets, nothing else. */
    method InspectTransition() returns (r: Result<Transition, string>)
      requires Valid() && source != []
      ensures r.Success? ==> Transitional(source, roles, contentId, direction, inventory, foreign)
      ensures r.Success? ==>
                r.value
                    == Transition(Sort(SourceIds(source, inventory), TextLe),
                                  Sort(TargetIds(source, inventory), TextLe))
      ensures !faulty ==> (r.Success? <==> Transitional(source, roles, contentId, direction, inventory, foreign))
    {
      hide IsSource, IsTarget, NamesFree;
      if !UniqueSource(source) { return Failure("Reviewed runtime binding contains duplicate identities."); }
      var unreachable: bool := *;
      if faulty && unreachable { return Failure("Docker is not reachable."); }
      var sourceIds: seq<string>, targetIds: seq<string> := [], [];
      for i := 0 to |inventory|
        invariant sourceIds == SourceIds(source, inventory[..i]) && targetIds == TargetIds(source, inventory[..i])
        invariant forall item :: item in inventory[..i] ==>
                    if Reviewed(source, item.binding.id) then IsSource(source, direction, item)
                    else IsTarget(source, roles, contentId, direction, item)
      {
        var item := inventory[i];
        assert item in inventory;
        if Reviewed(source, item.binding.id) {
          if !IsSource(source, direction, item) { return Failure("Reviewed source runtime changed."); }
          sourceIds := sourceIds + [item.binding.id];
        } else {
          if !IsTarget(source, roles, contentId, direction, item) {
            return Failure("Container is not the exact owned target.");
          }
          targetIds := targetIds + [item.binding.id];
        }
        assert inventory[..i + 1] == inventory[..i] + [item];
        assert inventory[..i + 1][..i] == inventory[..i];
      }
      assert inventory[..|inventory|] == inventory;
      if !NamesFree(source, roles, inventory, foreign) { return Failure("Runtime name is occupied."); }
      r := Success(Transition(Sort(sourceIds, TextLe), Sort(targetIds, TextLe)));
    }

    /** `docker rm`: any subset of the named containers may be gone when it is cut. */
    method Remove(ids: seq<string>) returns (e: Effect)
      requires Resumable() && forall id :: id in ids ==> Reviewed(source, id)
      modifies this`inventory
      ensures Resumable()
      ensures forall item :: item in inventory ==> item in old(inventory)
      ensures forall item :: item in old(inventory) && item !in inventory ==> Reviewed(source, item.binding.id)
      ensures e.Ok? ==> forall item :: item in inventory <==> item in old(inventory) && item.binding.id !in ids
      ensures !faulty ==> e.Ok?
    {
      hide Left, Reviewed;
      var cut, died: bool := *, *;
      var part: set<string> := *;
      var all := set id | id in ids;
      var gone := if faulty && cut then all * part else all;
      LeftAfterRemoval(source, roles, image, direction, inventory, foreign, gone);
      WithoutKeepsUnique(inventory, gone, ItemId);
      WithoutKeepsUnique(inventory, gone, ItemName);
      forall item {
        WithoutKeeps(inventory, gone, item);
      }
      inventory := Without(inventory, gone);
      return if faulty && cut then if died then Crashed else Failed else Ok;
    }

    /** removeComputerReplacementNetworks: only while no target uses them. */
    method RemoveNetworks() returns (e: Effect)
      requires NothingCreated(source, inventory)
      modifies this`controlNetwork, this`workspaceNetwork
      ensures e.Ok? ==> !controlNetwork && !workspaceNetwork
      ensures !faulty ==> e.Ok?
    {
      var failed, died: bool := *, *;
      if controlNetwork {
        if faulty && failed { return if died then Crashed else Failed; }
        controlNetwork := false;
      }
      var late: bool := *;
      if workspaceNetwork {
        if faulty && late { return if died then Crashed else Failed; }
        workspaceNetwork := false;
      }
      return Ok;
    }

    /** removeComputerRuntimeForLifecycleReplacement, for a journal that recorded its sources. */
    method RemoveSources() returns (e: Effect)
      requires Resumable() && source != []
      modifies this`inventory, this`controlNetwork, this`workspaceNetwork
      ensures Resumable()
      ensures forall item :: item in inventory ==> item in old(inventory)
      ensures forall item :: item in old(inventory) && item !in inventory ==> Reviewed(source, item.binding.id)
      ensures e.Ok? ==> OnlyTargets(source, inventory)
      ensures !NothingCreated(source, old(inventory)) ==>
                controlNetwork == old(controlNetwork) && workspaceNetwork == old(workspaceNetwork)
      ensures e.Ok? && inventory == [] ==> !controlNetwork && !workspaceNetwork
      ensures !old(CanRerun()) ==> !e.Ok? && inventory == old(inventory)
      ensures !faulty ==> (e.Ok? <==> old(CanRerun()))
    {
      hide Transitional, SourceIds, TargetIds, Reviewed, OnlyTargets;
      CheckAcceptsLeft(source, roles, contentId, image, direction, inventory, foreign);
      var transition := InspectTransition();
      if transition.Failure? { return Failed; }
      InspectionFacts(source, inventory, transition.value);
      if transition.value.sourceIds != [] {
        e := Remove(transition.value.sourceIds);
        if !e.Ok? { return; }
        SourcesGone(source, old(inventory), inventory, transition.value.sourceIds);
      }
      if transition.value.targetIds == [] {
        e := RemoveNetworks();
        if !e.Ok? { return; }
      }
      return Ok;
    }

    /**
     * The same for a journal without reviewed sources, on any inventory: nothing is removed, and only exact
     * targets in one state, or an incomplete group of them, are kept.
     */
    method KeepUnbound() returns (e: Effect)
      requires Valid() && source == []
      modifies this`controlNetwork, this`workspaceNetwork
      ensures e.Ok? && inventory == [] ==> !controlNetwork && !workspaceNetwork
      ensures inventory != [] ==> controlNetwork == old(controlNetwork) && workspaceNetwork == old(workspaceNetwork)
      ensures e.Ok? ==> Keepable(roles, contentId, direction, inventory, foreign)
      ensures !faulty ==> (e.Ok? <==> Keepable(roles, contentId, direction, inventory, foreign))
    {
      var unreachable: bool := *;
      if faulty && unreachable { return Failed; }
      var observation := Observe(Map(roles, RoleName), Map(inventory, ItemBinding));
      UnboundVerdict(roles, contentId, direction, inventory, foreign);
      UnboundObservation(roles, inventory);
      hide Observe, IsTarget, Keepable, ListsName, FitsRole, Reviewed;
      if exists item :: item in inventory && Misfit(roles, item) { return Failed; }
      if exists r :: r in roles && !ListsName(inventory, r.name) && r.name in foreign { return Failed; }
      if observation.group == AbsentGroup {
        e := RemoveNetworks();
        return;
      }
      return if observation.group in {Complete, Partial} && AllPinned(contentId, direction, observation.containers)
             then Ok else Failed;
    }

    /** `compose create` or `compose up`: any part of the missing targets, or all of them. */
    method Compose() returns (e: Effect)
      requires Resumable() && OnlyTargets(source, inventory)
      modifies this`inventory, this`controlNetwork, this`workspaceNetwork
      ensures Resumable() && OnlyTargets(source, inventory)
      ensures e.Ok? ==> Replaced(source, roles, Some(image), direction, inventory)
      ensures e.Ok? ==>
                inventory == ComposeSome(old(inventory), roles, image, direction, Avoided(source, old(inventory)))
      ensures e.Ok? && direction == ToStopped ==> forall item :: item in inventory ==> item.binding.status == IsCreated
      ensures !faulty ==> e.Ok?
    {
      controlNetwork, workspaceNetwork := true, true;
      var cut, died: bool := *, *;
      var part: seq<Item> := *;
      if faulty && cut {
        if PartlyComposed(part) { inventory := part; }
        return if died then Crashed else Failed;
      }
      RoleNamesFree(source, roles, inventory, foreign);
      LeftAfterCompose(source, roles, image, direction, inventory, foreign);
      ReplacedOnlyTargets(source, roles, Some(image), direction,
                          ComposeSome(inventory, roles, image, direction, Avoided(source, inventory)));
      inventory := ComposeSome(inventory, roles, image, direction, Avoided(source, inventory));
      return Ok;
    }

    /** Created containers only, with names and identifiers unique as Docker keeps them. */
    predicate PartlyComposed(part: seq<Item>)
      reads this`foreign
    {
      && Left(source, roles, image, direction, part, foreign)
      && forall item :: item in part ==> !Reviewed(source, item.binding.id) && item.binding.name !in foreign
    }

    /** assertStoppedReplacementStatus over the observation behind a creation. */
    method VerifyStopped() returns (e: Effect)
      requires Replaced(source, roles, Some(image), direction, inventory) && direction == ToStopped && roles != []
      requires forall item :: item in inventory ==> item.binding.status == IsCreated
      ensures !faulty ==> e.Ok?
    {
      var unreachable: bool := *;
      if faulty && unreachable { return Failed; }
      var observation := Observe(Map(roles, RoleName), Map(inventory, ItemBinding));
      ReplacedObserved(source, roles, image, direction, inventory);
      return if observation.group == Complete && observation.status in {IsCreated, IsExited} then Ok else Failed;
    }

    /** The whole replacement, run again from wherever it was left. */
    method Replace() returns (e: Effect)
      requires Resumable() && roles != []
      modifies this`inventory, this`controlNetwork, this`workspaceNetwork
      ensures Resumable()
      ensures e.Ok? ==> Replaced(source, roles, Some(image), direction, inventory)
      ensures !old(CanRerun()) ==> !e.Ok? && inventory == old(inventory)
      ensures !faulty ==> (e.Ok? <==> old(CanRerun()))
    {
      if source == [] {
        UnboundIsRerunnable(roles, contentId, image, direction, inventory, foreign);
        e := KeepUnbound();
      } else {
        e := RemoveSources();
      }
      hide Transitional, Left, IsTarget, Rerunnable;
      if !e.Ok? { return; }
      e := Compose();
      if !e.Ok? { return; }
      if direction == ToStopped {
        e := VerifyStopped();
      }
    }

    /**
     * However often the replacement is cut, a run without faults leaves the targets and nothing else, unless
     * a cut left containers of unpinned bytes, or mixed states without reviewed sources: then nothing ever moves.
     */
    method ReplaceEventually(crashes: nat) returns (e: Effect)
      requires Resumable() && roles != []
      modifies this`faulty, this`inventory, this`controlNetwork, this`workspaceNetwork
      ensures Resumable()
      ensures e.Ok? ==> Replaced(source, roles, Some(image), direction, inventory)
      ensures !e.Ok? ==> !CanRerun()
      ensures contentId == Some(image) && source != [] ==> e.Ok?
      ensures old(!CanRerun()) ==> !e.Ok? && inventory == old(inventory)
      ensures crashes == 0 ==> (e.Ok? <==> old(CanRerun()))
    {
      hide Left, Replaced;
      faulty := true;
      for attempt := 0 to crashes
        invariant Resumable()
        invariant attempt == 0 || old(!CanRerun()) ==> inventory == old(inventory)
      {
        var _ := Replace();
      }
      faulty := false;
      e := Replace();
    }
  }

  lemma SourcesGone(source: seq<Binding>, before: seq<Item>, after: seq<Item>, ids: seq<string>)
    requires forall item :: item in after <==> item in before && item.binding.id !in ids
    requires forall item :: item in before ==> (item.binding.id in ids <==> Reviewed(source, item.binding.id))
    ensures OnlyTargets(source, after)
  {
  }

  lemma ObservedNames(roles: seq<Role>, inventory: seq<Item>)
    ensures forall name :: name in Map(roles, RoleName) <==> exists r :: r in roles && r.name == name
    ensures forall b :: b in Map(inventory, ItemBinding) <==> exists item :: item in inventory && item.binding == b
  {
    var names, bindings := Map(roles, RoleName), Map(inventory, ItemBinding);
    forall r | r in roles
      ensures r.name in names
    {
      var k :| 0 <= k < |roles| && roles[k] == r;
      assert names[k] == r.name;
    }
    forall item | item in inventory
      ensures item.binding in bindings
    {
      var k :| 0 <= k < |inventory| && inventory[k] == item;
      assert bindings[k] == item.binding;
    }
  }

  /** What the observation says of any inventory, in terms of its containers. */
  lemma UnboundObservation(roles: seq<Role>, inventory: seq<Item>)
    ensures var o := Observe(Map(roles, RoleName), Map(inventory, ItemBinding));
            && (o.group == AbsentGroup <==> inventory == [])
            && (o.group in {Complete, Partial} <==>
                  && inventory != [] && (forall item :: item in inventory ==> item.binding.name in Map(roles, RoleName))
                  && (|inventory| != |roles| || Uniform(Map(inventory, ItemBinding))))
            && (o.group in {Complete, Partial} ==> o.containers == Map(inventory, ItemBinding))
  {
    ObservedNames(roles, inventory);
    var bindings := Map(inventory, ItemBinding);
    if inventory != [] { assert inventory[0] in inventory && bindings[0] in bindings; }
  }

  /** Of what the operation left, exactly the rerunnable inventories are kept. */
  lemma UnboundIsRerunnable(roles: seq<Role>, contentId: Option<string>, image: string, direction: Direction,
                            inventory: seq<Item>, foreign: set<string>)
    requires Transitional([], roles, Some(image), direction, inventory, foreign)
    ensures (forall item :: item in inventory ==> IsTarget([], roles, contentId, direction, item))
            && (|inventory| != |roles| || Uniform(Map(inventory, ItemBinding)))
        <==> Rerunnable([], roles, contentId, image, inventory)
  {
    hide NamesFree, FitsRole;
    if inventory != [] {
      assert inventory[0] in inventory && IsTarget([], roles, Some(image), direction, inventory[0]);
    }
  }

  lemma ReplacedObserved(source: seq<Binding>, roles: seq<Role>, image: string, direction: Direction,
                         inventory: seq<Item>)
    requires Replaced(source, roles, Some(image), direction, inventory) && roles != []
    requires forall item :: item in inventory ==> item.binding.status == IsCreated
    ensures var o := Observe(Map(roles, RoleName), Map(inventory, ItemBinding));
            o.group == Complete && o.status == IsCreated
  {
    var names, bindings := Map(roles, RoleName), Map(inventory, ItemBinding);
    forall k | 0 <= k < |bindings|
      ensures bindings[k].name in names && bindings[k].status == IsCreated
    {
      assert inventory[k] in inventory && names[k] == bindings[k].name;
    }
  }

  lemma ReplacedOnlyTargets(source: seq<Binding>, roles: seq<Role>, contentId: Option<string>, direction: Direction,
                            inventory: seq<Item>)
    requires Replaced(source, roles, contentId, direction, inventory)
    ensures OnlyTargets(source, inventory)
  {
  }
}
