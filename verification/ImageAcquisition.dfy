/**
 * The byte estimate of acquiring images: targets deduplicated by exact reference, totals bounded by the
 * safe-integer range. Models packages/cli/src/image-acquisition.ts; a throw is `None`.
 */
module ImageAcquisition {
  import opened Wrappers
  import opened Sorting

  datatype Target = Target(consumer: string, requested: string, resolved: string, download: Option<int>,
                           expanded: Option<int>)
  datatype TargetEstimate = TargetEstimate(exactTarget: string, consumers: seq<string>,
                                           requestedReferences: seq<string>, present: bool,
                                           catalogDownload: Option<int>, catalogExpanded: Option<int>,
                                           download: Option<int>, expanded: Option<int>)
  datatype Estimate = Estimate(targets: seq<TargetEstimate>, download: Option<int>, expanded: Option<int>)

  const MAX_SAFE := 0x1F_FFFF_FFFF_FFFF

  predicate ValidBytes(bytes: Option<int>) {
    bytes.Some? ==> 0 <= bytes.value <= MAX_SAFE
  }

  predicate ValidTarget(t: Target) {
    t.consumer != "" && t.requested != "" && t.resolved != "" && ValidBytes(t.download) && ValidBytes(t.expanded)
  }

  predicate SameSizes(a: Target, b: Target) {
    a.resolved == b.resolved ==> a.download == b.download && a.expanded == b.expanded
  }

  /** The first loop does not throw. */
  predicate Acceptable(targets: seq<Target>) {
    && (forall t :: t in targets ==> ValidTarget(t))
    && forall a, b :: a in targets && b in targets ==> SameSizes(a, b)
  }

  // ----- insertion-ordered sets -----

  function Add(s: seq<string>, x: string): seq<string> {
    if x in s then s else s + [x]
  }

  function References(targets: seq<Target>): seq<string> {
    if targets == [] then [] else Add(References(targets[..|targets| - 1]), targets[|targets| - 1].resolved)
  }

  function ConsumersOf(targets: seq<Target>, reference: string): seq<string> {
    if targets == [] then []
    else
      var before, last := ConsumersOf(targets[..|targets| - 1], reference), targets[|targets| - 1];
      if last.resolved == reference then Add(before, last.consumer) else before
  }

  function RequestedOf(targets: seq<Target>, reference: string): seq<string> {
    if targets == [] then []
    else
      var before, last := RequestedOf(targets[..|targets| - 1], reference), targets[|targets| - 1];
      if last.resolved == reference then Add(before, last.requested) else before
  }

  /** A target with the given exact reference; all of them agree on the sizes. */
  function Find(targets: seq<Target>, reference: string): (t: Option<Target>)
    ensures t.Some? ==> t.value in targets && t.value.resolved == reference
  {
    if targets == [] then None
    else
      var before := Find(targets[..|targets| - 1], reference);
      if before.Some? then before
      else if targets[|targets| - 1].resolved == reference then Some(targets[|targets| - 1])
      else None
  }

  // ----- the estimate -----

  function EstimateTarget(targets: seq<Target>, reference: string, present: set<string>): TargetEstimate {
    var found := Find(targets, reference);
    var download := if found.Some? then found.value.download else None;
    var expanded := if found.Some? then found.value.expanded else None;
    TargetEstimate(reference, Sort(ConsumersOf(targets, reference), TextLe),
                   Sort(RequestedOf(targets, reference), TextLe), reference in present, download, expanded,
                   if reference in present then Some(0) else download,
                   if reference in present then Some(0) else expanded)
  }

  function EstimateTargets(targets: seq<Target>, references: seq<string>, present: set<string>): seq<TargetEstimate> {
    Map(references, reference => EstimateTarget(targets, reference, present))
  }

  function Download(e: TargetEstimate): Option<int> { e.download }
  function Expanded(e: TargetEstimate): Option<int> { e.expanded }

  /** total: unknown as soon as one value is, otherwise the bounded running sum. */
  function Total(values: seq<Option<int>>): Option<Option<int>> {
    if None in values then Some(None)
    else
      var sum := RunningSum(values);
      if sum.Some? then Some(sum) else None
  }

  /** The reduction, failing at the first unsafe intermediate sum. */
  function RunningSum(values: seq<Option<int>>): Option<int> {
    if values == [] then Some(0)
    else
      var before, last := RunningSum(values[..|values| - 1]), values[|values| - 1];
      if before.None? || last.None? || before.value + last.value > MAX_SAFE then None
      else Some(before.value + last.value)
  }

  function Sum(values: seq<Option<int>>): int {
    if values == [] then 0
    else Sum(values[..|values| - 1]) + if values[|values| - 1].Some? then values[|values| - 1].value else 0
  }

  /** estimateImageAcquisition */
  function EstimateOf(targets: seq<Target>, present: set<string>): Option<Estimate> {
    if !Acceptable(targets) then None
    else
      var estimates := EstimateTargets(targets, Sort(References(targets), TextLe), present);
      var download, expanded := Total(Map(estimates, Download)), Total(Map(estimates, Expanded));
      if download.None? || expanded.None? then None else Some(Estimate(estimates, download.value, expanded.value))
  }

  // ----- what is listed -----

  lemma {:induction false} ReferencesAre(targets: seq<Target>)
    ensures NoDuplicates(References(targets))
    ensures forall r :: r in References(targets) <==> exists t :: t in targets && t.resolved == r
    decreases |targets|
  {
    if targets != [] {
      var before, last := targets[..|targets| - 1], targets[|targets| - 1];
      ReferencesAre(before);
      assert targets == before + [last];
    }
  }

  ghost predicate Consumes(targets: seq<Target>, reference: string, consumer: string) {
    exists t :: t in targets && t.resolved == reference && t.consumer == consumer
  }

  ghost predicate Requests(targets: seq<Target>, reference: string, requested: string) {
    exists t :: t in targets && t.resolved == reference && t.requested == requested
  }

  lemma {:induction false} ConsumersAre(targets: seq<Target>, reference: string)
    ensures NoDuplicates(ConsumersOf(targets, reference))
    ensures forall c :: c in ConsumersOf(targets, reference) <==> Consumes(targets, reference, c)
    decreases |targets|
  {
    if targets != [] {
      var before, last := targets[..|targets| - 1], targets[|targets| - 1];
      ConsumersAre(before, reference);
      assert targets == before + [last];
    }
  }

  lemma {:induction false} RequestedAre(targets: seq<Target>, reference: string)
    ensures NoDuplicates(RequestedOf(targets, reference))
    ensures forall x :: x in RequestedOf(targets, reference) <==> Requests(targets, reference, x)
    decreases |targets|
  {
    if targets != [] {
      var before, last := targets[..|targets| - 1], targets[|targets| - 1];
      RequestedAre(before, reference);
      assert targets == before + [last];
    }
  }

  lemma {:induction false} FindFinds(targets: seq<Target>, reference: string)
    ensures Find(targets, reference).Some? <==> exists t :: t in targets && t.resolved == reference
    decreases |targets|
  {
    if targets != [] {
      var before, last := targets[..|targets| - 1], targets[|targets| - 1];
      FindFinds(before, reference);
      assert targets == before + [last];
    }
  }

  /** Every consumer is listed under its exact target, once, in text order; and nobody else is. */
  lemma ConsumersListed(targets: seq<Target>, reference: string, present: set<string>, consumer: string)
    ensures consumer in EstimateTarget(targets, reference, present).consumers <==>
              Consumes(targets, reference, consumer)
    ensures NoDuplicates(EstimateTarget(targets, reference, present).consumers)
  {
    ConsumersAre(targets, reference);
    SortKeepsElements(ConsumersOf(targets, reference), TextLe);
    SortIsPermutation(ConsumersOf(targets, reference), TextLe);
    PermutationKeepsDistinctness(ConsumersOf(targets, reference), Sort(ConsumersOf(targets, reference), TextLe));
  }

  // ----- independence of order -----

  lemma TextOrder()
    ensures Preorder(TextLe)
  {
    forall x, y, z: string
      ensures TextLe(x, y) || TextLe(y, x)
      ensures TextLe(x, y) && TextLe(y, z) ==> TextLe(x, z)
    {
      TextLeTotal(x, y);
      if TextLe(x, y) && TextLe(y, z) {
        TextLeTransitive(x, y, z);
      }
    }
  }

  /** Two lists of the same distinct texts sort to the same list. */
  lemma SameTextsSortAlike(a: seq<string>, b: seq<string>)
    requires NoDuplicates(a) && NoDuplicates(b) && forall x :: x in a <==> x in b
    ensures Sort(a, TextLe) == Sort(b, TextLe)
  {
    TextOrder();
    SameSize(a, b);
    InsideIsPermutation(a, b);
    forall x, y | TextLe(x, y) && TextLe(y, x)
      ensures x == y
    {
      TextLeTotal(x, y);
    }
    SortIgnoresInputOrder(a, b, TextLe);
  }

  lemma SameSize(a: seq<string>, b: seq<string>)
    requires NoDuplicates(a) && NoDuplicates(b) && forall x :: x in a <==> x in b
    ensures |a| == |b|
  {
    forall x
      ensures multiset(a)[x] == multiset(b)[x]
    {
      DistinctMeansOnce(a, x);
      DistinctMeansOnce(b, x);
    }
    assert multiset(a) == multiset(b);
    assert |multiset(a)| == |a| && |multiset(b)| == |b|;
  }

  lemma SameTargetEstimate(a: seq<Target>, b: seq<Target>, reference: string, present: set<string>)
    requires Acceptable(a) && forall t :: t in a <==> t in b
    ensures EstimateTarget(a, reference, present) == EstimateTarget(b, reference, present)
  {
    ConsumersAre(a, reference);
    ConsumersAre(b, reference);
    assert forall c :: Consumes(a, reference, c) <==> Consumes(b, reference, c);
    SameTextsSortAlike(ConsumersOf(a, reference), ConsumersOf(b, reference));
    RequestedAre(a, reference);
    RequestedAre(b, reference);
    assert forall x :: Requests(a, reference, x) <==> Requests(b, reference, x);
    SameTextsSortAlike(RequestedOf(a, reference), RequestedOf(b, reference));
    FindFinds(a, reference);
    FindFinds(b, reference);
    var x, y := Find(a, reference), Find(b, reference);
    assert x.Some? <==> y.Some?;
    assert x.Some? ==> SameSizes(x.value, y.value);
  }

  /** The estimate, and whether there is one, does not depend on the order of the targets. */
  lemma EstimateIgnoresOrder(a: seq<Target>, b: seq<Target>, present: set<string>)
    requires multiset(a) == multiset(b)
    ensures EstimateOf(a, present) == EstimateOf(b, present)
  {
    forall t {
      SameElements(a, b, t);
    }
    assert Acceptable(a) <==> Acceptable(b);
    if Acceptable(a) {
      ReferencesAre(a);
      ReferencesAre(b);
      SameTextsSortAlike(References(a), References(b));
      forall reference {
        SameTargetEstimate(a, b, reference, present);
      }
      var references := Sort(References(a), TextLe);
      assert EstimateTargets(a, references, present) == EstimateTargets(b, references, present);
    }
  }

  // ----- totals -----

  ghost predicate Counted(values: seq<Option<int>>) {
    forall i :: 0 <= i < |values| ==> values[i].Some? && values[i].value >= 0
  }

  lemma {:induction false} RunningSumIsSum(values: seq<Option<int>>)
    requires Counted(values)
    ensures Sum(values) >= 0
    ensures RunningSum(values) == if Sum(values) <= MAX_SAFE then Some(Sum(values)) else None
    decreases |values|
  {
    if values != [] {
      RunningSumIsSum(values[..|values| - 1]);
    }
  }

  /** A total is unknown exactly if a value is; otherwise it is the sum, refused exactly above 2^53 - 1. */
  lemma TotalIsBoundedSum(values: seq<Option<int>>)
    requires forall v :: v in values ==> ValidBytes(v)
    ensures Total(values) == Some(None) <==> None in values
    ensures None !in values ==> Total(values) == if Sum(values) <= MAX_SAFE then Some(Some(Sum(values))) else None
  {
    if None !in values {
      forall i | 0 <= i < |values|
        ensures values[i].Some? && values[i].value >= 0
      {
        assert values[i] in values;
      }
      RunningSumIsSum(values);
    }
  }

  /** The bytes still to fetch for one exact reference. */
  function Missing(targets: seq<Target>, reference: string, present: set<string>, expanded: bool): Option<int> {
    if reference in present then Some(0)
    else
      var found := Find(targets, reference);
      if found.None? then None else if expanded then found.value.expanded else found.value.download
  }

  lemma {:induction false} SumPermutes(a: seq<Option<int>>, b: seq<Option<int>>)
    requires multiset(a) == multiset(b)
    ensures Sum(a) == Sum(b)
    decreases |a|
  {
    assert |multiset(a)| == |a| && |multiset(b)| == |b|;
    if a != [] {
      var last := |a| - 1;
      SameElements(a, b, a[last]);
      var j :| 0 <= j < |b| && b[j] == a[last];
      var front, rest := a[..last], b[..j] + b[j + 1..];
      assert a == front + [a[last]];
      AppendMultiset(front, a[last]);
      SumLast(front, a[last]);
      WithoutOne(b, j);
      hide Sum;
      SumPermutes(front, rest);
      SumSplits(b[..j], b[j], b[j + 1..]);
    } else {
      assert b == [];
    }
  }

  lemma {:induction false} SumSplits(a: seq<Option<int>>, x: Option<int>, b: seq<Option<int>>)
    ensures Sum(a + [x] + b) == Sum(a + b) + if x.Some? then x.value else 0
    decreases |b|
  {
    if b == [] {
      EmptySides(a);
      EmptySides(a + [x]);
      SumLast(a, x);
    } else {
      var last, rest := |b| - 1, b[..|b| - 1];
      assert b == rest + [b[last]];
      Associates(a + [x], rest, [b[last]]);
      Associates(a, rest, [b[last]]);
      SumSplits(a, x, rest);
      SumLast(a + [x] + rest, b[last]);
      SumLast(a + rest, b[last]);
    }
  }

  lemma SumLast(a: seq<Option<int>>, x: Option<int>)
    ensures Sum(a + [x]) == Sum(a) + if x.Some? then x.value else 0
  {
    assert (a + [x])[..|a|] == a;
  }

  function Bytes(expanded: bool): TargetEstimate -> Option<int> {
    (e: TargetEstimate) => if expanded then e.expanded else e.download
  }

  function MissingBytes(targets: seq<Target>, present: set<string>, expanded: bool): string -> Option<int> {
    reference => Missing(targets, reference, present, expanded)
  }

  lemma EstimatesAreMissing(targets: seq<Target>, references: seq<string>, present: set<string>, expanded: bool)
    requires Acceptable(targets)
    ensures Map(EstimateTargets(targets, references, present), Bytes(expanded))
              == Map(references, MissingBytes(targets, present, expanded))
    ensures forall v :: v in Map(references, MissingBytes(targets, present, expanded)) ==> ValidBytes(v)
  {
    hide ConsumersOf, RequestedOf;
    forall i | 0 <= i < |references|
      ensures ValidBytes(Missing(targets, references[i], present, expanded))
    {
      assert Find(targets, references[i]).Some? ==> ValidTarget(Find(targets, references[i]).value);
    }
  }

  lemma MapKeepsValue(references: seq<string>, sorted: seq<string>, bytes: string -> Option<int>)
    requires forall r :: r in sorted <==> r in references
    ensures None in Map(sorted, bytes) <==> exists r :: r in references && bytes(r) == None
  {
    forall r | r in references
      ensures bytes(r) in Map(sorted, bytes)
    {
      var i :| 0 <= i < |sorted| && sorted[i] == r;
      assert Map(sorted, bytes)[i] == bytes(r);
    }
  }

  /** The acquisition bytes of the estimates are those of the distinct exact references, in whatever order. */
  lemma ValuesAreOfMissingTargets(targets: seq<Target>, present: set<string>, expanded: bool)
    requires Acceptable(targets)
    ensures var values := Map(EstimateTargets(targets, Sort(References(targets), TextLe), present), Bytes(expanded));
            && (None in values <==> Unknown(targets, present, expanded))
            && Sum(values) == MissingSum(targets, present, expanded)
            && (forall v :: v in values ==> ValidBytes(v))
  {
    hide Acceptable, References, Missing, EstimateTarget;
    var references := References(targets);
    var sorted := Sort(references, TextLe);
    var bytes := MissingBytes(targets, present, expanded);
    EstimatesAreMissing(targets, sorted, present, expanded);
    SortIsPermutation(references, TextLe);
    SortKeepsElements(references, TextLe);
    MapKeepsPermutation(sorted, references, bytes);
    SumPermutes(Map(sorted, bytes), Map(references, bytes));
    MapKeepsValue(references, sorted, bytes);
  }

  /** Some distinct exact reference still to fetch has an unknown size. */
  ghost predicate Unknown(targets: seq<Target>, present: set<string>, expanded: bool) {
    exists r :: r in References(targets) && MissingBytes(targets, present, expanded)(r) == None
  }

  /** The known sizes of the distinct exact references still to fetch, added up. */
  function MissingSum(targets: seq<Target>, present: set<string>, expanded: bool): int {
    Sum(Map(References(targets), MissingBytes(targets, present, expanded)))
  }

  ghost predicate Overflows(targets: seq<Target>, present: set<string>, expanded: bool) {
    !Unknown(targets, present, expanded) && MissingSum(targets, present, expanded) > MAX_SAFE
  }

  /**
   * Each total is unknown exactly if some missing target's size is; otherwise it is the sum over the
   * distinct missing targets, and the estimate is refused exactly when such a sum exceeds 2^53 - 1.
   */
  lemma EstimateTotals(targets: seq<Target>, present: set<string>)
    requires Acceptable(targets)
    ensures EstimateOf(targets, present) == None <==>
              Overflows(targets, present, false) || Overflows(targets, present, true)
    ensures EstimateOf(targets, present).Some? ==>
              var e := EstimateOf(targets, present).value;
              && (e.download == None <==> Unknown(targets, present, false))
              && (e.download.Some? ==> e.download.value == MissingSum(targets, present, false))
              && (e.expanded == None <==> Unknown(targets, present, true))
              && (e.expanded.Some? ==> e.expanded.value == MissingSum(targets, present, true))
  {
    hide Acceptable, References, EstimateTargets, MissingSum, Unknown, Sum, Total;
    var estimates := EstimateTargets(targets, Sort(References(targets), TextLe), present);
    assert Map(estimates, Download) == Map(estimates, Bytes(false))
           && Map(estimates, Expanded) == Map(estimates, Bytes(true));
    ValuesAreOfMissingTargets(targets, present, false);
    ValuesAreOfMissingTargets(targets, present, true);
    TotalIsBoundedSum(Map(estimates, Download));
    TotalIsBoundedSum(Map(estimates, Expanded));
  }

  // ----- the estimate as it runs -----

  /** What the first loop collects for one exact reference. */
  datatype Collected = Collected(consumers: seq<string>, requested: seq<string>, download: Option<int>,
                                 expanded: Option<int>)

  ghost predicate Collects(unique: map<string, Collected>, targets: seq<Target>) {
    && (forall r :: r in unique <==> r in References(targets))
    && forall r :: r in unique ==> CollectedFrom(unique[r], targets, r)
  }

  lemma OneMore(before: seq<Target>, t: Target, r: string)
    ensures References(before + [t]) == Add(References(before), t.resolved)
    ensures ConsumersOf(before + [t], r)
              == if t.resolved == r then Add(ConsumersOf(before, r), t.consumer) else ConsumersOf(before, r)
    ensures RequestedOf(before + [t], r)
              == if t.resolved == r then Add(RequestedOf(before, r), t.requested) else RequestedOf(before, r)
    ensures Find(before + [t], r)
              == if Find(before, r).Some? then Find(before, r) else if t.resolved == r then Some(t) else None
  {
    assert (before + [t])[..|before|] == before;
  }

  predicate CollectedFrom(c: Collected, targets: seq<Target>, r: string) {
    && Find(targets, r).Some?
    && c == Collected(ConsumersOf(targets, r), RequestedOf(targets, r), Find(targets, r).value.download,
                      Find(targets, r).value.expanded)
  }

  lemma NewReference(before: seq<Target>, reference: string)
    requires reference !in References(before)
    ensures ConsumersOf(before, reference) == [] && RequestedOf(before, reference) == []
            && Find(before, reference) == None
  {
    ReferencesAre(before);
    FindFinds(before, reference);
    ConsumersAre(before, reference);
    RequestedAre(before, reference);
    assert |ConsumersOf(before, reference)| > 0 ==> ConsumersOf(before, reference)[0] in ConsumersOf(before, reference);
    assert |RequestedOf(before, reference)| > 0 ==> RequestedOf(before, reference)[0] in RequestedOf(before, reference);
  }

  lemma AcceptableExtends(before: seq<Target>, t: Target)
    requires Acceptable(before) && ValidTarget(t)
    requires Find(before, t.resolved).Some? ==> SameSizes(Find(before, t.resolved).value, t)
    ensures Acceptable(before + [t])
  {
    FindFinds(before, t.resolved);
    forall a | a in before
      ensures SameSizes(a, t)
    {
      if a.resolved == t.resolved {
        assert SameSizes(a, Find(before, t.resolved).value);
      }
    }
  }

  /** How the map changes for one more target. */
  function Collect(unique: map<string, Collected>, t: Target): map<string, Collected> {
    if t.resolved in unique then
      var existing := unique[t.resolved];
      unique[t.resolved := existing.(consumers := Add(existing.consumers, t.consumer),
                                     requested := Add(existing.requested, t.requested))]
    else unique[t.resolved := Collected([t.consumer], [t.requested], t.download, t.expanded)]
  }

  lemma CollectOne(unique: map<string, Collected>, before: seq<Target>, t: Target, r: string)
    requires r in unique ==> CollectedFrom(unique[r], before, r)
    requires t.resolved !in unique ==> t.resolved !in References(before)
    requires r in Collect(unique, t)
    ensures CollectedFrom(Collect(unique, t)[r], before + [t], r)
  {
    hide References, ConsumersOf, RequestedOf, Find;
    OneMore(before, t, r);
    if t.resolved !in unique {
      NewReference(before, t.resolved);
    }
  }

  lemma CollectCollects(unique: map<string, Collected>, before: seq<Target>, t: Target)
    requires Collects(unique, before)
    ensures Collects(Collect(unique, t), before + [t])
  {
    hide References, CollectedFrom;
    OneMore(before, t, t.resolved);
    forall r | r in Collect(unique, t)
      ensures CollectedFrom(Collect(unique, t)[r], before + [t], r)
    {
      CollectOne(unique, before, t, r);
    }
  }

  predicate Conflicts(existing: Collected, t: Target) {
    existing.download != t.download || existing.expanded != t.expanded
  }

  /** A target that makes the loop throw makes the whole list unacceptable. */
  lemma InvalidIsRefused(targets: seq<Target>, i: nat)
    requires i < |targets| && !ValidTarget(targets[i])
    ensures !Acceptable(targets)
  {
    assert targets[i] in targets;
  }

  lemma ConflictIsRefused(targets: seq<Target>, i: nat, unique: map<string, Collected>)
    requires i < |targets| && Collects(unique, targets[..i])
    requires targets[i].resolved in unique && Conflicts(unique[targets[i].resolved], targets[i])
    ensures !Acceptable(targets)
  {
    var found := Find(targets[..i], targets[i].resolved).value;
    assert found in targets && targets[i] in targets && !SameSizes(found, targets[i]);
  }

  lemma CollectedIsAcceptable(before: seq<Target>, unique: map<string, Collected>, t: Target)
    requires Acceptable(before) && Collects(unique, before) && ValidTarget(t)
    requires t.resolved in unique ==> !Conflicts(unique[t.resolved], t)
    ensures Acceptable(before + [t])
  {
    ReferencesAre(before);
    FindFinds(before, t.resolved);
    AcceptableExtends(before, t);
  }

  /** The deduplicating loop over a mutated map. */
  method Deduplicate(targets: seq<Target>) returns (ok: bool, order: seq<string>, unique: map<string, Collected>)
    ensures ok <==> Acceptable(targets)
    ensures ok ==> order == References(targets) && Collects(unique, targets)
  {
    hide References, Acceptable, Collects, ConsumersOf, RequestedOf, Find, ValidTarget;
    order, unique := [], map[];
    Nothing();
    var i := 0;
    while i < |targets|
      invariant i <= |targets| && Acceptable(targets[..i])
      invariant order == References(targets[..i]) && Collects(unique, targets[..i])
      invariant forall r :: r in unique <==> r in order
    {
      var t := targets[i];
      assert targets[..i + 1] == targets[..i] + [t];
      if !ValidTarget(t) {
        InvalidIsRefused(targets, i);
        return false, order, unique;
      }
      if t.resolved in unique {
        if Conflicts(unique[t.resolved], t) {
          ConflictIsRefused(targets, i, unique);
          return false, order, unique;
        }
      }
      CollectedIsAcceptable(targets[..i], unique, t);
      CollectCollects(unique, targets[..i], t);
      OneMore(targets[..i], t, t.resolved);
      order := Add(order, t.resolved);
      unique := Collect(unique, t);
      i := i + 1;
    }
    assert targets[..i] == targets;
    ok := true;
  }

  lemma Nothing()
    ensures References([]) == [] && Acceptable([]) && Collects(map[], [])
  {
  }

  /** total, as the reduction runs. */
  method ComputeTotal(values: seq<Option<int>>) returns (r: Option<Option<int>>)
    ensures r == Total(values)
  {
    if None in values { return Some(None); }
    var sum := 0;
    for i := 0 to |values|
      invariant RunningSum(values[..i]) == Some(sum)
    {
      assert values[..i + 1][..i] == values[..i] && values[i] in values;
      var next := sum + values[i].value;
      if next > MAX_SAFE {
        RunningSumStops(values, i + 1);
        return None;
      }
      sum := next;
    }
    assert values[..|values|] == values;
    return Some(Some(sum));
  }

  lemma {:induction false} RunningSumStops(values: seq<Option<int>>, n: nat)
    requires n <= |values| && RunningSum(values[..n]).None?
    ensures RunningSum(values).None?
    decreases |values| - n
  {
    if n == |values| {
      assert values[..n] == values;
    } else {
      assert values[..n + 1][..n] == values[..n];
      RunningSumStops(values, n + 1);
    }
  }

  lemma CollectedEstimate(targets: seq<Target>, unique: map<string, Collected>, reference: string, present: set<string>)
    requires Collects(unique, targets) && reference in unique
    ensures EstimateTarget(targets, reference, present) == FromCollected(unique[reference], reference, present)
  {
  }

  function FromCollected(c: Collected, reference: string, present: set<string>): TargetEstimate {
    var here := reference in present;
    TargetEstimate(reference, Sort(c.consumers, TextLe), Sort(c.requested, TextLe), here, c.download, c.expanded,
                   if here then Some(0) else c.download, if here then Some(0) else c.expanded)
  }

  /** estimateImageAcquisition as it runs. */
  method EstimateImageAcquisition(targets: seq<Target>, present: set<string>) returns (r: Option<Estimate>)
    ensures r == EstimateOf(targets, present)
  {
    hide References, Acceptable, EstimateTarget, Total, FromCollected;
    var ok, order, unique := Deduplicate(targets);
    if !ok { return None; }
    var sorted := Sort(order, TextLe);
    SortKeepsElements(order, TextLe);
    var estimates: seq<TargetEstimate> := [];
    for i := 0 to |sorted|
      invariant |estimates| == i
                && forall k :: 0 <= k < i ==> estimates[k] == EstimateTarget(targets, sorted[k], present)
    {
      assert sorted[i] in order;
      CollectedEstimate(targets, unique, sorted[i], present);
      estimates := estimates + [FromCollected(unique[sorted[i]], sorted[i], present)];
    }
    assert estimates == EstimateTargets(targets, sorted, present);
    var download := ComputeTotal(Map(estimates, Download));
    if download.None? { return None; }
    var expanded := ComputeTotal(Map(estimates, Expanded));
    if expanded.None? { return None; }
    r := Some(Estimate(estimates, download.value, expanded.value));
  }
}
