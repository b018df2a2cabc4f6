/**
 * What `qubicl cleanup` offers for deletion and how it deletes: a canonical plan of an unordered
 * inventory, and a loop that takes a fresh inventory before every removal.
 * Models packages/cli/src/cleanup-plan.ts; digests are represented by the values they identify.
 */
module CleanupPlan {
  import opened Wrappers
  import opened Sorting

  // ----- inventory -----

  datatype Kind = ContainerKind | NetworkKind | VolumeKind | ImageKind | CacheRecordKind | EvidenceRecordKind
  datatype Label = Label(key: string, value: string)
  datatype Attachment = Attachment(containerId: string, running: bool)

  datatype Item =
    | Container(id: string, name: string, labels: seq<Label>, status: string)
    | Network(id: string, name: string, labels: seq<Label>, attached: seq<Attachment>)
    | Volume(id: string, name: string, labels: seq<Label>, attached: seq<Attachment>, durableHome: bool)
    | Image(id: string, name: string, labels: seq<Label>, references: seq<string>, referencedBy: seq<Attachment>)
    | Record(id: string, name: string, evidence: bool, ns: string, schemaVersion: int, obsolete: bool, referenced: bool)
  {
    function Kind(): Kind {
      match this
      case Container(_, _, _, _) => ContainerKind
      case Network(_, _, _, _) => NetworkKind
      case Volume(_, _, _, _, _) => VolumeKind
      case Image(_, _, _, _, _) => ImageKind
      case Record(_, _, evidence, _, _, _, _) => if evidence then EvidenceRecordKind else CacheRecordKind
    }
  }

  datatype Selection = Selection(orphans: bool, images: bool, records: bool)
  datatype Snapshot = Snapshot(installationId: string, projectName: string, expectedContainers: set<string>,
                               expectedNetworks: set<string>, expectedVolumes: set<string>,
                               protectedImages: set<string>, retainedImages: set<string>, items: seq<Item>)

  function LabelKey(entry: Label): string { entry.key }

  function Find(labels: seq<Label>, key: string): Option<string> {
    if labels == [] then None
    else if labels[0].key == key then Some(labels[0].value)
    else Find(labels[1..], key)
  }

  predicate Attaches(attached: seq<Attachment>) {
    exists a :: a in attached && a.running
  }

  // ----- text forms -----

  predicate Digit(c: char) { '0' <= c <= '9' }
  predicate LowerHex(c: char) { Digit(c) || 'a' <= c <= 'f' }
  predicate Hex(c: char) { LowerHex(c) || 'A' <= c <= 'F' }

  predicate Uuid(s: string) {
    && |s| == 36
    && (forall i :: 0 <= i < 36 ==> if i in {8, 13, 18, 23} then s[i] == '-' else Hex(s[i]))
    && '1' <= s[14] <= '8'
    && s[19] in {'8', '9', 'a', 'b', 'A', 'B'}
  }

  predicate LowerHex64(s: string) {
    |s| == 64 && forall i :: 0 <= i < 64 ==> LowerHex(s[i])
  }

  predicate ContentId(s: string) {
    |s| == 71 && s[..7] == "sha256:" && LowerHex64(s[7..])
  }

  // ----- decisions -----

  datatype Reason = NotSelected | OwnershipUnverified | CurrentManagedRuntime | RunningResource | AttachedResource
                  | DurableHome | MutableIdentity | SharedGlobalImage | CurrentOrRetainedImage
                  | ContainerReferencedImage | NotObsolete
                  | RecordReferenced
  /** The detail text is fixed by kind and reason but for the container status it may quote. */
  datatype Decision = Remove | Preserve(reason: Reason, quoted: string)

  predicate VerifiedContainer(installationId: string, labels: seq<Label>) {
    && Find(labels, "dev.qubicl.installation") == Some(installationId)
    && match Find(labels, "dev.qubicl.role")
       case None => false
       case Some(role) =>
         if role == "gateway" then true
         else if role == "computer" then
           Find(labels, "dev.qubicl.id").Some? && Uuid(Find(labels, "dev.qubicl.id").value)
         else
           && role in {"computer-executor", "computer-egress", "computer-web", "computer-session", "computer-ssh"}
           && Find(labels, "dev.qubicl.computer-id").Some? && Uuid(Find(labels, "dev.qubicl.computer-id").value)
  }

  predicate VerifiedCompose(projectName: string, name: string, labels: seq<Label>, kindLabel: string) {
    && Find(labels, "com.docker.compose.project") == Some(projectName)
    && Find(labels, kindLabel).Some?
    && (name == projectName || projectName + "-" <= name || projectName + "_" <= name)
  }

  predicate EndsWith(s: string, suffix: string) {
    |suffix| <= |s| && s[|s| - |suffix|..] == suffix
  }

  predicate VerifiedImage(id: string, labels: seq<Label>) {
    && ContentId(id)
    && Find(labels, "org.opencontainers.image.source") == Some("https://github.com/EldanRing/qubicl")
    && Find(labels, "org.opencontainers.image.licenses") == Some("Apache-2.0")
    && var title := Find(labels, "org.opencontainers.image.title");
       if title == Some("Qubicl gateway") then
         var version := Find(labels, "dev.qubicl.gateway-protocol-version");
         version.Some? && version.value != "" && forall i :: 0 <= i < |version.value| ==> Digit(version.value[i])
       else
         var manifest := Find(labels, "dev.qubicl.manifest-sha256");
         && title == Some("Qubicl computer") && Find(labels, "dev.qubicl.contract-version") == Some("1")
         && Find(labels, "dev.qubicl.preset") !in {None, Some("")}
         && Find(labels, "dev.qubicl.compatibility") !in {None, Some("")}
         && manifest.Some? && LowerHex64(manifest.value)
  }

  function ContainerDecision(snapshot: Snapshot, name: string, labels: seq<Label>, status: string): Decision {
    if !VerifiedContainer(snapshot.installationId, labels) then
      Preserve(OwnershipUnverified, "")
    else if name in snapshot.expectedContainers then
      Preserve(CurrentManagedRuntime, "")
    else if status !in {"exited", "created", "dead"} then
      Preserve(RunningResource, status)
    else Remove
  }

  function NetworkDecision(snapshot: Snapshot, name: string, labels: seq<Label>, attached: seq<Attachment>): Decision {
    if !VerifiedCompose(snapshot.projectName, name, labels, "com.docker.compose.network") then
      Preserve(OwnershipUnverified, "")
    else if name in snapshot.expectedNetworks then
      Preserve(CurrentManagedRuntime, "")
    else if Attaches(attached) then Preserve(RunningResource, "")
    else if attached != [] then Preserve(AttachedResource, "")
    else Remove
  }

  function VolumeDecision(snapshot: Snapshot, name: string, labels: seq<Label>, attached: seq<Attachment>,
                          durableHome: bool): Decision
  {
    if durableHome then Preserve(DurableHome, "")
    else if !(VerifiedCompose(snapshot.projectName, name, labels, "com.docker.compose.volume")
              && EndsWith(name, "-x11")) then
      Preserve(OwnershipUnverified, "")
    else if name in snapshot.expectedVolumes then
      Preserve(CurrentManagedRuntime, "")
    else if Attaches(attached) then Preserve(RunningResource, "")
    else if attached != [] then Preserve(AttachedResource, "")
    else Preserve(MutableIdentity, "")
  }

  function ImageDecision(snapshot: Snapshot, id: string, labels: seq<Label>, references: seq<string>,
                         referencedBy: seq<Attachment>): Decision
  {
    var kept := snapshot.protectedImages + snapshot.retainedImages;
    if !VerifiedImage(id, labels) then
      Preserve(OwnershipUnverified, "")
    else if id in kept || exists r :: r in references && r in kept then
      Preserve(CurrentOrRetainedImage, "")
    else if Attaches(referencedBy) then Preserve(RunningResource, "")
    else if referencedBy != [] then Preserve(ContainerReferencedImage, "")
    else Preserve(SharedGlobalImage, "")
  }

  function RecordDecision(ns: string, schemaVersion: int, obsolete: bool, referenced: bool): Decision {
    if ns != "qubicl-runtime" || schemaVersion != 1 then
      Preserve(OwnershipUnverified, "")
    else if referenced then Preserve(RecordReferenced, "")
    else if !obsolete then Preserve(NotObsolete, "")
    else Remove
  }

  /** cleanupDecision */
  function Decide(snapshot: Snapshot, selection: Selection, item: Item): Decision {
    if (item.Container? || item.Network? || item.Volume?) && !selection.orphans then
      Preserve(NotSelected, "")
    else if item.Image? && !selection.images then Preserve(NotSelected, "")
    else if item.Record? && !selection.records then Preserve(NotSelected, "")
    else
      match item
      case Container(_, name, labels, status) => ContainerDecision(snapshot, name, labels, status)
      case Network(_, name, labels, attached) => NetworkDecision(snapshot, name, labels, attached)
      case Volume(_, name, labels, attached, durableHome) =>
        VolumeDecision(snapshot, name, labels, attached, durableHome)
      case Image(id, _, labels, references, referencedBy) =>
        ImageDecision(snapshot, id, labels, references, referencedBy)
      case Record(_, _, _, ns, schemaVersion, obsolete, referenced) =>
        RecordDecision(ns, schemaVersion, obsolete, referenced)
  }

  // ----- evidence -----

  predicate LabelLe(a: Label, b: Label) { TextLe(a.key, b.key) }

  predicate AttachmentLe(a: Attachment, b: Attachment) {
    if a.containerId == b.containerId then a.running ==> b.running else TextLe(a.containerId, b.containerId)
  }

  /** cleanupEvidence: the item with everything unordered put in order. */
  function Evidence(item: Item): Item {
    match item
    case Container(id, name, labels, status) => Container(id, name, Sort(labels, LabelLe), status)
    case Network(id, name, labels, attached) => Network(id, name, Sort(labels, LabelLe), Sort(attached, AttachmentLe))
    case Volume(id, name, labels, attached, durableHome) =>
      Volume(id, name, Sort(labels, LabelLe), Sort(attached, AttachmentLe), durableHome)
    case Image(id, name, labels, references, referencedBy) =>
      Image(id, name, Sort(labels, LabelLe), Sort(references, TextLe), Sort(referencedBy, AttachmentLe))
    case Record(_, _, _, _, _, _, _) => item
  }

  // ----- the plan -----

  datatype Identity = Identity(kind: Kind, id: string, name: string)
  datatype Candidate = Candidate(identity: Identity, evidence: Item)
  datatype Preserved = Preserved(identity: Identity, reason: Reason, quoted: string)
  datatype Plan = Plan(selection: Selection, candidates: seq<Candidate>, preserved: seq<Preserved>)

  function KindOrder(kind: Kind): nat {
    match kind
    case ContainerKind => 0
    case NetworkKind => 1
    case VolumeKind => 2
    case ImageKind => 3
    case CacheRecordKind => 4
    case EvidenceRecordKind => 5
  }

  predicate IdentityLe(a: Identity, b: Identity) {
    if KindOrder(a.kind) != KindOrder(b.kind) then KindOrder(a.kind) < KindOrder(b.kind)
    else if a.name != b.name then TextLe(a.name, b.name)
    else TextLe(a.id, b.id)
  }

  function IdentityOf(item: Item): Identity { Identity(item.Kind(), item.id, item.name) }
  predicate ItemLe(a: Item, b: Item) { IdentityLe(IdentityOf(a), IdentityOf(b)) }
  predicate CandidateLe(a: Candidate, b: Candidate) { IdentityLe(a.identity, b.identity) }
  predicate PreservedLe(a: Preserved, b: Preserved) { IdentityLe(a.identity, b.identity) }

  function ItemKey(item: Item): (Kind, string) { (item.Kind(), item.id) }

  /** validateSnapshot does not throw. */
  predicate Acceptable(snapshot: Snapshot) {
    && Uuid(snapshot.installationId) && snapshot.projectName != ""
    && (forall item :: item in snapshot.items ==> item.id != "" && item.name != "")
    && UniqueBy(snapshot.items, ItemKey)
  }

  function CandidateOf(snapshot: Snapshot, selection: Selection, item: Item): seq<Candidate> {
    if Decide(snapshot, selection, item).Remove? then [Candidate(IdentityOf(item), Evidence(item))] else []
  }

  function PreservationOf(snapshot: Snapshot, selection: Selection, item: Item): seq<Preserved> {
    match Decide(snapshot, selection, item)
    case Remove => []
    case Preserve(reason, quoted) => [Preserved(IdentityOf(item), reason, quoted)]
  }

  function Candidates(snapshot: Snapshot, selection: Selection, items: seq<Item>): seq<Candidate> {
    if items == [] then []
    else CandidateOf(snapshot, selection, items[0]) + Candidates(snapshot, selection, items[1..])
  }

  function Preservations(snapshot: Snapshot, selection: Selection, items: seq<Item>): seq<Preserved> {
    if items == [] then []
    else PreservationOf(snapshot, selection, items[0]) + Preservations(snapshot, selection, items[1..])
  }

  function PlanOf(snapshot: Snapshot, selection: Selection): Plan {
    var ordered := Sort(snapshot.items, ItemLe);
    Plan(selection, Sort(Candidates(snapshot, selection, ordered), CandidateLe),
         Sort(Preservations(snapshot, selection, ordered), PreservedLe))
  }

  lemma {:induction false} DecisionsAppend(snapshot: Snapshot, selection: Selection, items: seq<Item>, item: Item)
    ensures Candidates(snapshot, selection, items + [item])
              == Candidates(snapshot, selection, items) + Candidates(snapshot, selection, [item])
    ensures Preservations(snapshot, selection, items + [item])
              == Preservations(snapshot, selection, items) + Preservations(snapshot, selection, [item])
  {
    if items == [] {
      assert items + [item] == [item];
      EmptySides(Candidates(snapshot, selection, [item]));
      EmptySides(Preservations(snapshot, selection, [item]));
    } else {
      var longer := items + [item];
      assert longer[0] == items[0] && longer[1..] == items[1..] + [item];
      DecisionsAppend(snapshot, selection, items[1..], item);
      DecisionsSplit(snapshot, selection, items);
      DecisionsSplit(snapshot, selection, longer);
      hide Candidates, Preservations, CandidateOf, PreservationOf;
      Associates(CandidateOf(snapshot, selection, items[0]), Candidates(snapshot, selection, items[1..]),
                 Candidates(snapshot, selection, [item]));
      Associates(PreservationOf(snapshot, selection, items[0]), Preservations(snapshot, selection, items[1..]),
                 Preservations(snapshot, selection, [item]));
    }
  }

  lemma DecisionsSplit(snapshot: Snapshot, selection: Selection, items: seq<Item>)
    requires items != []
    ensures Candidates(snapshot, selection, items)
              == CandidateOf(snapshot, selection, items[0]) + Candidates(snapshot, selection, items[1..])
    ensures Preservations(snapshot, selection, items)
              == PreservationOf(snapshot, selection, items[0]) + Preservations(snapshot, selection, items[1..])
  {
  }

  /** buildCleanupPlan as it runs: one pass over the ordered inventory, then both lists are sorted. */
  method BuildCleanupPlan(snapshot: Snapshot, selection: Selection) returns (r: Result<Plan, string>)
    ensures r.Success? <==> Acceptable(snapshot)
    ensures r.Success? ==> r.value == PlanOf(snapshot, selection)
  {
    hide Decide, Evidence;
    if !Acceptable(snapshot) { return Failure("Cleanup snapshot is invalid."); }
    var candidates: seq<Candidate>, preserved: seq<Preserved> := [], [];
    var ordered := Sort(snapshot.items, ItemLe);
    for i := 0 to |ordered|
      invariant candidates == Candidates(snapshot, selection, ordered[..i])
      invariant preserved == Preservations(snapshot, selection, ordered[..i])
    {
      var item := ordered[i];
      DecisionsAppend(snapshot, selection, ordered[..i], item);
      assert ordered[..i + 1] == ordered[..i] + [item];
      match Decide(snapshot, selection, item)
      case Remove => candidates := candidates + [Candidate(IdentityOf(item), Evidence(item))];
      case Preserve(reason, quoted) => preserved := preserved + [Preserved(IdentityOf(item), reason, quoted)];
    }
    assert ordered[..|ordered|] == ordered;
    r := Success(Plan(selection, Sort(candidates, CandidateLe), Sort(preserved, PreservedLe)));
  }

  // ----- what order does not change -----

  predicate ValidItem(item: Item) {
    !item.Record? ==> UniqueBy(item.labels, LabelKey)
  }

  /** The same item with its labels, attachments and references listed in another order. */
  predicate Relisted(a: Item, b: Item) {
    match a
    case Container(id, name, labels, status) =>
      b.Container? && b == Container(id, name, b.labels, status) && multiset(b.labels) == multiset(labels)
    case Network(id, name, labels, attached) =>
      && b.Network? && b == Network(id, name, b.labels, b.attached)
      && multiset(b.labels) == multiset(labels) && multiset(b.attached) == multiset(attached)
    case Volume(id, name, labels, attached, durableHome) =>
      && b.Volume? && b == Volume(id, name, b.labels, b.attached, durableHome)
      && multiset(b.labels) == multiset(labels) && multiset(b.attached) == multiset(attached)
    case Image(id, name, labels, references, referencedBy) =>
      && b.Image? && b == Image(id, name, b.labels, b.references, b.referencedBy)
      && multiset(b.labels) == multiset(labels) && multiset(b.references) == multiset(references)
      && multiset(b.referencedBy) == multiset(referencedBy)
    case Record(_, _, _, _, _, _, _) => b == a
  }

  lemma TextOrder()
    ensures Preorder(TextLe) && Preorder(LabelLe) && Preorder(AttachmentLe) && Preorder(IdentityLe) && Preorder(ItemLe)
  {
    forall x, y: string
      ensures TextLe(x, y) || TextLe(y, x)
      ensures TextLe(x, y) && TextLe(y, x) ==> x == y
    {
      TextLeTotal(x, y);
    }
    forall x, y, z: string | TextLe(x, y) && TextLe(y, z)
      ensures TextLe(x, z)
    {
      TextLeTransitive(x, y, z);
    }
    hide TextLe;
  }

  lemma LabelsIgnoreOrder(a: seq<Label>, b: seq<Label>)
    requires UniqueBy(a, LabelKey) && multiset(a) == multiset(b)
    ensures Sort(a, LabelLe) == Sort(b, LabelLe)
  {
    TextOrder();
    forall x, y | x in a && y in a && LabelLe(x, y) && LabelLe(y, x)
      ensures x == y
    {
      TextLeTotal(x.key, y.key);
      var i :| 0 <= i < |a| && a[i] == x;
      var j :| 0 <= j < |a| && a[j] == y;
      assert LabelKey(a[i]) == LabelKey(a[j]);
    }
    SortIgnoresInputOrder(a, b, LabelLe);
  }

  lemma AttachmentsIgnoreOrder(a: seq<Attachment>, b: seq<Attachment>)
    requires multiset(a) == multiset(b)
    ensures Sort(a, AttachmentLe) == Sort(b, AttachmentLe)
  {
    TextOrder();
    forall x, y | AttachmentLe(x, y) && AttachmentLe(y, x)
      ensures x == y
    {
      TextLeTotal(x.containerId, y.containerId);
    }
    SortIgnoresInputOrder(a, b, AttachmentLe);
  }

  lemma ReferencesIgnoreOrder(a: seq<string>, b: seq<string>)
    requires multiset(a) == multiset(b)
    ensures Sort(a, TextLe) == Sort(b, TextLe)
  {
    TextOrder();
    forall x, y | TextLe(x, y) && TextLe(y, x)
      ensures x == y
    {
      TextLeTotal(x, y);
    }
    SortIgnoresInputOrder(a, b, TextLe);
  }

  /** The evidence of an item, and so its validation digest, does not depend on how it was listed. */
  lemma EvidenceIgnoresOrder(a: Item, b: Item)
    requires ValidItem(a) && Relisted(a, b)
    ensures Evidence(a) == Evidence(b)
  {
    if !a.Record? { LabelsIgnoreOrder(a.labels, b.labels); }
    if a.Network? || a.Volume? { AttachmentsIgnoreOrder(a.attached, b.attached); }
    if a.Image? {
      AttachmentsIgnoreOrder(a.referencedBy, b.referencedBy);
      ReferencesIgnoreOrder(a.references, b.references);
    }
  }

  lemma EvidenceRelists(item: Item)
    ensures Relisted(item, Evidence(item)) && IdentityOf(Evidence(item)) == IdentityOf(item)
  {
    if !item.Record? { SortIsPermutation(item.labels, LabelLe); }
    if item.Network? || item.Volume? { SortIsPermutation(item.attached, AttachmentLe); }
    if item.Image? {
      SortIsPermutation(item.referencedBy, AttachmentLe);
      SortIsPermutation(item.references, TextLe);
    }
  }

  lemma {:induction false} FindIsMembership(labels: seq<Label>, key: string)
    requires UniqueBy(labels, LabelKey)
    ensures forall value :: Find(labels, key) == Some(value) <==> Label(key, value) in labels
  {
    if labels != [] {
      forall i, j | 0 <= i < j < |labels[1..]|
        ensures LabelKey(labels[1..][i]) != LabelKey(labels[1..][j])
      {
        assert LabelKey(labels[i + 1]) != LabelKey(labels[j + 1]);
      }
      FindIsMembership(labels[1..], key);
      if labels[0].key == key {
        forall value | Label(key, value) in labels
          ensures value == labels[0].value
        {
          var i :| 0 <= i < |labels| && labels[i] == Label(key, value);
          assert LabelKey(labels[i]) == LabelKey(labels[0]);
        }
      }
    }
  }

  lemma FindIgnoresOrder(a: seq<Label>, b: seq<Label>, key: string)
    requires UniqueBy(a, LabelKey) && UniqueBy(b, LabelKey) && multiset(a) == multiset(b)
    ensures Find(a, key) == Find(b, key)
  {
    FindIsMembership(a, key);
    FindIsMembership(b, key);
    forall value {
      SameElements(a, b, Label(key, value));
    }
    var x, y := Find(a, key), Find(b, key);
    assert forall value :: x == Some(value) <==> y == Some(value);
    if x.Some? { assert x == Some(x.value); }
    if y.Some? { assert y == Some(y.value); }
  }

  lemma AttachesIgnoresOrder(a: seq<Attachment>, b: seq<Attachment>)
    requires multiset(a) == multiset(b)
    ensures Attaches(a) == Attaches(b) && (a == [] <==> b == [])
  {
    forall x {
      SameElements(a, b, x);
    }
    assert |multiset(a)| == |a| && |multiset(b)| == |b|;
  }

  lemma ContainerIgnoresOrder(snapshot: Snapshot, a: Item, b: Item)
    requires a.Container? && ValidItem(a) && ValidItem(b) && Relisted(a, b)
    ensures ContainerDecision(snapshot, a.name, a.labels, a.status)
              == ContainerDecision(snapshot, b.name, b.labels, b.status)
  {
    hide Find, Uuid;
    FindIgnoresOrder(a.labels, b.labels, "dev.qubicl.installation");
    FindIgnoresOrder(a.labels, b.labels, "dev.qubicl.role");
    FindIgnoresOrder(a.labels, b.labels, "dev.qubicl.id");
    FindIgnoresOrder(a.labels, b.labels, "dev.qubicl.computer-id");
  }

  lemma ComposeIgnoresOrder(project: string, name: string, a: seq<Label>, b: seq<Label>, kindLabel: string)
    requires UniqueBy(a, LabelKey) && UniqueBy(b, LabelKey) && multiset(a) == multiset(b)
    ensures VerifiedCompose(project, name, a, kindLabel) == VerifiedCompose(project, name, b, kindLabel)
  {
    hide Find;
    FindIgnoresOrder(a, b, "com.docker.compose.project");
    FindIgnoresOrder(a, b, kindLabel);
  }

  lemma NetworkIgnoresOrder(snapshot: Snapshot, a: Item, b: Item)
    requires a.Network? && ValidItem(a) && ValidItem(b) && Relisted(a, b)
    ensures NetworkDecision(snapshot, a.name, a.labels, a.attached)
              == NetworkDecision(snapshot, b.name, b.labels, b.attached)
  {
    hide Attaches, VerifiedCompose;
    ComposeIgnoresOrder(snapshot.projectName, a.name, a.labels, b.labels, "com.docker.compose.network");
    AttachesIgnoresOrder(a.attached, b.attached);
  }

  lemma VolumeIgnoresOrder(snapshot: Snapshot, a: Item, b: Item)
    requires a.Volume? && ValidItem(a) && ValidItem(b) && Relisted(a, b)
    ensures VolumeDecision(snapshot, a.name, a.labels, a.attached, a.durableHome)
              == VolumeDecision(snapshot, b.name, b.labels, b.attached, b.durableHome)
  {
    hide Attaches, VerifiedCompose, EndsWith;
    ComposeIgnoresOrder(snapshot.projectName, a.name, a.labels, b.labels, "com.docker.compose.volume");
    AttachesIgnoresOrder(a.attached, b.attached);
  }

  lemma ImageOwnershipIgnoresOrder(id: string, a: seq<Label>, b: seq<Label>)
    requires UniqueBy(a, LabelKey) && UniqueBy(b, LabelKey) && multiset(a) == multiset(b)
    ensures VerifiedImage(id, a) == VerifiedImage(id, b)
  {
    hide Find, LowerHex64, ContentId, Digit;
    FindIgnoresOrder(a, b, "org.opencontainers.image.source");
    FindIgnoresOrder(a, b, "org.opencontainers.image.licenses");
    FindIgnoresOrder(a, b, "org.opencontainers.image.title");
    FindIgnoresOrder(a, b, "dev.qubicl.gateway-protocol-version");
    FindIgnoresOrder(a, b, "dev.qubicl.contract-version");
    FindIgnoresOrder(a, b, "dev.qubicl.preset");
    FindIgnoresOrder(a, b, "dev.qubicl.compatibility");
    FindIgnoresOrder(a, b, "dev.qubicl.manifest-sha256");
  }

  lemma ImageIgnoresOrder(snapshot: Snapshot, a: Item, b: Item)
    requires a.Image? && ValidItem(a) && ValidItem(b) && Relisted(a, b)
    ensures ImageDecision(snapshot, a.id, a.labels, a.references, a.referencedBy)
              == ImageDecision(snapshot, b.id, b.labels, b.references, b.referencedBy)
  {
    hide Attaches, VerifiedImage;
    ImageOwnershipIgnoresOrder(a.id, a.labels, b.labels);
    forall r { SameElements(a.references, b.references, r); }
    AttachesIgnoresOrder(a.referencedBy, b.referencedBy);
  }

  /** A decision reads labels by key, references by membership and attachments by existence. */
  lemma DecisionIgnoresOrder(snapshot: Snapshot, selection: Selection, a: Item, b: Item)
    requires ValidItem(a) && ValidItem(b) && Relisted(a, b)
    ensures Decide(snapshot, selection, a) == Decide(snapshot, selection, b)
  {
    hide ContainerDecision, NetworkDecision, VolumeDecision, ImageDecision, RecordDecision;
    match a
    case Container(_, _, _, _) => ContainerIgnoresOrder(snapshot, a, b);
    case Network(_, _, _, _) => NetworkIgnoresOrder(snapshot, a, b);
    case Volume(_, _, _, _, _) => VolumeIgnoresOrder(snapshot, a, b);
    case Image(_, _, _, _, _) => ImageIgnoresOrder(snapshot, a, b);
    case Record(_, _, _, _, _, _, _) =>
  }

  lemma RelistedValid(a: Item, b: Item)
    requires ValidItem(a) && Relisted(a, b)
    ensures ValidItem(b)
  {
    if !a.Record? { PermutationKeepsKeyUnique(a.labels, b.labels, LabelKey); }
  }

  // ----- order independence of the plan -----

  /** Everything the plan says about an item, it says about the item's evidence. */
  lemma {:induction false} PlanReadsEvidence(snapshot: Snapshot, selection: Selection, items: seq<Item>)
    requires forall item :: item in items ==> ValidItem(item)
    ensures Candidates(snapshot, selection, Map(items, Evidence)) == Candidates(snapshot, selection, items)
    ensures Preservations(snapshot, selection, Map(items, Evidence)) == Preservations(snapshot, selection, items)
  {
    if items != [] {
      var item, evidence := items[0], Evidence(items[0]);
      PlanReadsEvidence(snapshot, selection, items[1..]);
      assert Map(items, Evidence)[1..] == Map(items[1..], Evidence);
      EvidenceRelists(item);
      RelistedValid(item, evidence);
      DecisionIgnoresOrder(snapshot, selection, item, evidence);
      EvidenceIgnoresOrder(item, evidence);
      hide Decide, Evidence;
    }
  }

  lemma DecideIgnoresInventory(snapshot: Snapshot, selection: Selection, items: seq<Item>, item: Item)
    ensures Decide(snapshot.(items := items), selection, item) == Decide(snapshot, selection, item)
  {
    hide Find, VerifiedImage, VerifiedCompose, VerifiedContainer;
  }

  lemma {:induction false} ListsIgnoreInventory(snapshot: Snapshot, selection: Selection, inventory: seq<Item>,
                                                items: seq<Item>)
    ensures Candidates(snapshot.(items := inventory), selection, items) == Candidates(snapshot, selection, items)
    ensures Preservations(snapshot.(items := inventory), selection, items) == Preservations(snapshot, selection, items)
  {
    hide Decide, Evidence;
    if items != [] {
      DecideIgnoresInventory(snapshot, selection, inventory, items[0]);
      ListsIgnoreInventory(snapshot, selection, inventory, items[1..]);
    }
  }

  lemma ItemsIgnoreOrder(a: seq<Item>, b: seq<Item>)
    requires UniqueBy(a, ItemKey) && multiset(a) == multiset(b)
    ensures Sort(a, ItemLe) == Sort(b, ItemLe)
  {
    TextOrder();
    forall x, y | x in a && y in a && ItemLe(x, y) && ItemLe(y, x)
      ensures x == y
    {
      TextLeTotal(x.name, y.name);
      TextLeTotal(x.id, y.id);
      var i :| 0 <= i < |a| && a[i] == x;
      var j :| 0 <= j < |a| && a[j] == y;
      assert ItemKey(a[i]) == ItemKey(a[j]);
    }
    SortIgnoresInputOrder(a, b, ItemLe);
  }

  /** An inventory with its items in another order, and everything inside each item in another order. */
  predicate RelistedInventory(items: seq<Item>, middle: seq<Item>, relisted: seq<Item>) {
    && multiset(middle) == multiset(items)
    && |relisted| == |middle| && forall i :: 0 <= i < |middle| ==> Relisted(middle[i], relisted[i])
  }

  lemma SameEvidenceList(middle: seq<Item>, relisted: seq<Item>)
    requires |relisted| == |middle|
             && forall i :: 0 <= i < |middle| ==> Relisted(middle[i], relisted[i]) && ValidItem(middle[i])
    ensures Map(relisted, Evidence) == Map(middle, Evidence)
    ensures forall item :: item in relisted ==> ValidItem(item)
  {
    hide Evidence;
    forall i | 0 <= i < |middle|
      ensures Evidence(relisted[i]) == Evidence(middle[i]) && ValidItem(relisted[i])
    {
      EvidenceIgnoresOrder(middle[i], relisted[i]);
      RelistedValid(middle[i], relisted[i]);
    }
  }

  lemma SortedEvidence(items: seq<Item>)
    ensures Sort(Map(items, Evidence), ItemLe) == Map(Sort(items, ItemLe), Evidence)
  {
    forall x
      ensures IdentityOf(Evidence(x)) == IdentityOf(x)
    {
      EvidenceRelists(x);
    }
    SortCommutesWithMap(items, Evidence, ItemLe);
  }

  lemma OrderedListsReadEvidence(snapshot: Snapshot, selection: Selection, items: seq<Item>)
    requires forall item :: item in items ==> ValidItem(item)
    ensures var ordered := Sort(Map(items, Evidence), ItemLe);
            && Candidates(snapshot, selection, Sort(items, ItemLe)) == Candidates(snapshot, selection, ordered)
            && Preservations(snapshot, selection, Sort(items, ItemLe)) == Preservations(snapshot, selection, ordered)
  {
    hide Evidence;
    SortedEvidence(items);
    SortKeepsElements(items, ItemLe);
    PlanReadsEvidence(snapshot, selection, Sort(items, ItemLe));
  }

  /** The plan and its review digest do not depend on the order of items, labels, attachments or references. */
  lemma PlanIgnoresOrder(snapshot: Snapshot, selection: Selection, middle: seq<Item>, relisted: seq<Item>)
    requires Acceptable(snapshot) && forall item :: item in snapshot.items ==> ValidItem(item)
    requires RelistedInventory(snapshot.items, middle, relisted)
    ensures PlanOf(snapshot.(items := relisted), selection) == PlanOf(snapshot, selection)
  {
    hide Evidence, Relisted, ValidItem, Decide;
    ItemsIgnoreOrder(snapshot.items, middle);
    forall i | 0 <= i < |middle|
      ensures ValidItem(middle[i])
    {
      SameElements(middle, snapshot.items, middle[i]);
    }
    SameEvidenceList(middle, relisted);
    OrderedListsReadEvidence(snapshot, selection, middle);
    OrderedListsReadEvidence(snapshot, selection, relisted);
    ListsIgnoreInventory(snapshot, selection, relisted, Sort(relisted, ItemLe));
  }

  // ----- what the plan contains -----

  /** A candidate is the evidence of an item that is to be removed. */
  ghost predicate Removable(snapshot: Snapshot, selection: Selection, items: seq<Item>, c: Candidate) {
    exists item :: item in items && Decide(snapshot, selection, item) == Remove
      && c == Candidate(IdentityOf(item), Evidence(item))
  }

  lemma {:induction false} CandidatesAreRemovable(snapshot: Snapshot, selection: Selection, items: seq<Item>,
                                                  c: Candidate)
    ensures c in Candidates(snapshot, selection, items) <==> Removable(snapshot, selection, items, c)
  {
    hide Decide, Evidence;
    if items != [] {
      CandidatesAreRemovable(snapshot, selection, items[1..], c);
      assert items == [items[0]] + items[1..];
    }
  }

  /** What may ever be removed: verified stopped orphans, detached project networks, obsolete records. */
  predicate Disposable(snapshot: Snapshot, selection: Selection, item: Item) {
    match item
    case Container(_, name, labels, status) =>
      && selection.orphans && VerifiedContainer(snapshot.installationId, labels)
      && name !in snapshot.expectedContainers && status in {"exited", "created", "dead"}
    case Network(_, name, labels, attached) =>
      && selection.orphans && VerifiedCompose(snapshot.projectName, name, labels, "com.docker.compose.network")
      && name !in snapshot.expectedNetworks && attached == []
    case Record(_, _, _, ns, schemaVersion, obsolete, referenced) =>
      selection.records && ns == "qubicl-runtime" && schemaVersion == 1 && obsolete && !referenced
    case _ => false
  }

  lemma RemoveIffDisposable(snapshot: Snapshot, selection: Selection, item: Item)
    ensures Decide(snapshot, selection, item) == Remove <==> Disposable(snapshot, selection, item)
  {
    hide VerifiedContainer, VerifiedCompose, VerifiedImage, EndsWith;
  }

  /** The candidates are exactly the disposable items; volumes, durable homes and images never are. */
  lemma CandidatesAreDisposable(snapshot: Snapshot, selection: Selection, c: Candidate)
    ensures c in PlanOf(snapshot, selection).candidates
        <==> exists item :: item in snapshot.items && Disposable(snapshot, selection, item)
                            && c == Candidate(IdentityOf(item), Evidence(item))
  {
    hide Disposable, Decide, Evidence;
    var ordered := Sort(snapshot.items, ItemLe);
    SortKeepsElements(snapshot.items, ItemLe);
    SortKeepsElements(Candidates(snapshot, selection, ordered), CandidateLe);
    CandidatesAreRemovable(snapshot, selection, ordered, c);
    forall item {
      RemoveIffDisposable(snapshot, selection, item);
    }
  }

  function CandidateIdentity(c: Candidate): Identity { c.identity }
  function PreservedIdentity(p: Preserved): Identity { p.identity }

  lemma {:induction false} MapCons<T, U>(x: T, s: seq<T>, f: T -> U)
    ensures multiset(Map([x] + s, f)) == multiset{f(x)} + multiset(Map(s, f))
  {
    assert Map([x] + s, f) == [f(x)] + Map(s, f);
  }

  lemma {:induction false} ListsPartition(snapshot: Snapshot, selection: Selection, items: seq<Item>)
    ensures multiset(Map(Candidates(snapshot, selection, items), CandidateIdentity))
              + multiset(Map(Preservations(snapshot, selection, items), PreservedIdentity))
              == multiset(Map(items, IdentityOf))
  {
    hide Decide, Evidence;
    if items != [] {
      var item, rest := items[0], items[1..];
      ListsPartition(snapshot, selection, rest);
      assert items == [item] + rest;
      MapCons(item, rest, IdentityOf);
      match Decide(snapshot, selection, item)
      case Remove =>
        assert Preservations(snapshot, selection, items) == Preservations(snapshot, selection, rest);
        MapCons(Candidate(IdentityOf(item), Evidence(item)), Candidates(snapshot, selection, rest), CandidateIdentity);
      case Preserve(reason, quoted) =>
        assert Candidates(snapshot, selection, items) == Candidates(snapshot, selection, rest);
        MapCons(Preserved(IdentityOf(item), reason, quoted), Preservations(snapshot, selection, rest),
                PreservedIdentity);
    }
  }

  /** Candidates and preserved items together hold every inventory item exactly once. */
  lemma PlanPartitionsInventory(snapshot: Snapshot, selection: Selection)
    ensures var plan := PlanOf(snapshot, selection);
            multiset(Map(plan.candidates, CandidateIdentity)) + multiset(Map(plan.preserved, PreservedIdentity))
              == multiset(Map(snapshot.items, IdentityOf))
  {
    hide Decide, Evidence;
    var ordered := Sort(snapshot.items, ItemLe);
    var candidates, kept := Candidates(snapshot, selection, ordered), Preservations(snapshot, selection, ordered);
    ListsPartition(snapshot, selection, ordered);
    SortIsPermutation(snapshot.items, ItemLe);
    MapKeepsPermutation(ordered, snapshot.items, IdentityOf);
    SortIsPermutation(candidates, CandidateLe);
    MapKeepsPermutation(Sort(candidates, CandidateLe), candidates, CandidateIdentity);
    SortIsPermutation(kept, PreservedLe);
    MapKeepsPermutation(Sort(kept, PreservedLe), kept, PreservedIdentity);
  }

  lemma {:induction false} InsideDistinctIsDistinct<T(!new)>(part: seq<T>, rest: multiset<T>, whole: seq<T>)
    requires NoDuplicates(whole) && multiset(part) + rest == multiset(whole)
    ensures NoDuplicates(part)
  {
    forall i, j | 0 <= i < j < |part|
      ensures part[i] != part[j]
    {
      DistinctMeansOnce(whole, part[i]);
      if part[i] == part[j] {
        RepeatedMeansTwice(part, i, j);
      }
    }
  }

  /** No candidate is listed twice. */
  lemma CandidatesDistinct(snapshot: Snapshot, selection: Selection)
    requires Acceptable(snapshot)
    ensures NoDuplicates(PlanOf(snapshot, selection).candidates)
  {
    var plan := PlanOf(snapshot, selection);
    hide PlanOf;
    PlanPartitionsInventory(snapshot, selection);
    forall i, j | 0 <= i < j < |snapshot.items|
      ensures IdentityOf(snapshot.items[i]) != IdentityOf(snapshot.items[j])
    {
      assert ItemKey(snapshot.items[i]) != ItemKey(snapshot.items[j]);
    }
    InsideDistinctIsDistinct(Map(plan.candidates, CandidateIdentity), multiset(Map(plan.preserved, PreservedIdentity)),
                             Map(snapshot.items, IdentityOf));
    forall i, j | 0 <= i < j < |plan.candidates|
      ensures plan.candidates[i] != plan.candidates[j]
    {
      assert Map(plan.candidates, CandidateIdentity)[i] != Map(plan.candidates, CandidateIdentity)[j];
    }
  }

  // ----- execution -----

  datatype Event = Inventory(snapshot: Snapshot) | Unavailable | Removal(candidate: Candidate, ok: bool)
  datatype Outcome = Removed | Kept | FailedRemoval
  datatype Execution = Execution(removed: seq<Candidate>, preserved: seq<Candidate>, failed: seq<Candidate>)

  /** The candidates with one outcome, in reviewed order. */
  function Pick(candidates: seq<Candidate>, outcomes: seq<Outcome>, wanted: set<Outcome>): seq<Candidate>
    requires |outcomes| <= |candidates|
  {
    if outcomes == [] then []
    else
      var last := |outcomes| - 1;
      Pick(candidates, outcomes[..last], wanted) + if outcomes[last] in wanted then [candidates[last]] else []
  }

  /** One turn of the deletion loop: the inventory collected for it, and whether a removal succeeds. */
  datatype Turn = Turn(snapshot: Snapshot, ok: bool)

  ghost function OutcomeOf(selection: Selection, c: Candidate, turn: Turn): Outcome {
    if c !in PlanOf(turn.snapshot, selection).candidates then Kept else if turn.ok then Removed else FailedRemoval
  }

  ghost function TurnEvents(selection: Selection, c: Candidate, turn: Turn): seq<Event> {
    [Inventory(turn.snapshot)] + if OutcomeOf(selection, c, turn) == Kept then [] else [Removal(c, turn.ok)]
  }

  ghost function Outcomes(reviewed: Plan, turns: seq<Turn>): (outcomes: seq<Outcome>)
    requires |turns| <= |reviewed.candidates|
    ensures |outcomes| == |turns|
  {
    seq(|turns|, i requires 0 <= i < |turns| => OutcomeOf(reviewed.selection, reviewed.candidates[i], turns[i]))
  }

  /** What the deletion loop does to the world in these turns. */
  ghost function Events(reviewed: Plan, turns: seq<Turn>): seq<Event>
    requires |turns| <= |reviewed.candidates|
  {
    if turns == [] then []
    else
      var last := |turns| - 1;
      Events(reviewed, turns[..last]) + TurnEvents(reviewed.selection, reviewed.candidates[last], turns[last])
  }

  /**
   * The whole run: it goes on past a first inventory only if that is the reviewed one, then takes one
   * turn per reviewed candidate, and stops early only when an inventory cannot be collected.
   */
  ghost predicate Performed(log: seq<Event>, reviewed: Plan, turns: seq<Turn>, done: bool) {
    && |turns| <= |reviewed.candidates| && log != []
    && match log[0]
       case Removal(_, _) => false
       case Unavailable => !done && turns == [] && |log| == 1
       case Inventory(first) =>
         if PlanOf(first, reviewed.selection) != reviewed then !done && turns == [] && |log| == 1
         else log == [log[0]] + Events(reviewed, turns) + (if done then [] else [Unavailable])
              && (done <==> |turns| == |reviewed.candidates|)
  }

  lemma TurnAdds(reviewed: Plan, turns: seq<Turn>, turn: Turn)
    requires |turns| < |reviewed.candidates|
    ensures var c := reviewed.candidates[|turns|];
            && Outcomes(reviewed, turns + [turn])
                 == Outcomes(reviewed, turns) + [OutcomeOf(reviewed.selection, c, turn)]
            && Events(reviewed, turns + [turn]) == Events(reviewed, turns) + TurnEvents(reviewed.selection, c, turn)
  {
    hide OutcomeOf, TurnEvents;
    assert (turns + [turn])[..|turns|] == turns;
  }

  function Removals(log: seq<Event>): seq<Candidate> {
    if log == [] then []
    else Removals(log[..|log| - 1]) + if log[|log| - 1].Removal? then [log[|log| - 1].candidate] else []
  }

  /**
   * Every removal follows at once on a fresh inventory in which the reviewed candidate is a candidate
   * again, with the same evidence; and nothing is removed unless the first inventory was the reviewed one.
   */
  ghost predicate Guarded(log: seq<Event>, reviewed: Plan) {
    forall k :: 0 <= k < |log| ==> GuardedAt(log, k, reviewed)
  }

  ghost predicate GuardedAt(log: seq<Event>, k: nat, reviewed: Plan)
    requires k < |log|
  {
    log[k].Removal? ==>
      && k >= 2 && log[0].Inventory? && PlanOf(log[0].snapshot, reviewed.selection) == reviewed
      && log[k - 1].Inventory? && log[k].candidate in reviewed.candidates
      && log[k].candidate in PlanOf(log[k - 1].snapshot, reviewed.selection).candidates
  }

  lemma PickLast(candidates: seq<Candidate>, outcomes: seq<Outcome>, wanted: Outcome)
    requires outcomes != [] && |outcomes| == |candidates|
    ensures var last := |outcomes| - 1;
            multiset(Pick(candidates, outcomes, {wanted}))
              == Grow(multiset(Pick(candidates[..last], outcomes[..last], {wanted})), candidates[last],
                      outcomes[last] == wanted)
  {
    PickIgnoresRest(candidates, candidates[..|outcomes| - 1], outcomes[..|outcomes| - 1], {wanted});
  }

  function Grow(m: multiset<Candidate>, c: Candidate, added: bool): multiset<Candidate> {
    if added then m + multiset{c} else m
  }

  lemma GrowPartition(removed: multiset<Candidate>, kept: multiset<Candidate>, failed: multiset<Candidate>,
                      c: Candidate, o: Outcome)
    ensures Grow(removed, c, o == Removed) + Grow(kept, c, o == Kept) + Grow(failed, c, o == FailedRemoval)
              == removed + kept + failed + multiset{c}
  {
  }

  /** Removed, preserved and failed partition the reviewed candidates, each in reviewed order. */
  lemma {:induction false} PickPartitions(candidates: seq<Candidate>, outcomes: seq<Outcome>)
    requires |outcomes| == |candidates|
    ensures multiset(Pick(candidates, outcomes, {Removed})) + multiset(Pick(candidates, outcomes, {Kept}))
              + multiset(Pick(candidates, outcomes, {FailedRemoval})) == multiset(candidates)
  {
    hide Grow;
    if outcomes != [] {
      var last := |outcomes| - 1;
      var before, done := candidates[..last], outcomes[..last];
      PickPartitions(before, done);
      PickLast(candidates, outcomes, Removed);
      PickLast(candidates, outcomes, Kept);
      PickLast(candidates, outcomes, FailedRemoval);
      GrowPartition(multiset(Pick(before, done, {Removed})), multiset(Pick(before, done, {Kept})),
                    multiset(Pick(before, done, {FailedRemoval})), candidates[last], outcomes[last]);
      AppendOne(before, candidates[last]);
      assert candidates == before + [candidates[last]];
    } else {
      assert candidates == [];
    }
  }

  lemma AppendOne(s: seq<Candidate>, c: Candidate)
    ensures multiset(s + [c]) == multiset(s) + multiset{c}
  {
  }

  lemma {:induction false} PickIgnoresRest(a: seq<Candidate>, b: seq<Candidate>, outcomes: seq<Outcome>,
                                           wanted: set<Outcome>)
    requires |outcomes| <= |b| <= |a| && b == a[..|b|]
    ensures Pick(a, outcomes, wanted) == Pick(b, outcomes, wanted)
  {
    if outcomes != [] {
      PickIgnoresRest(a, b, outcomes[..|outcomes| - 1], wanted);
    }
  }

  lemma {:induction false} PickMembers(candidates: seq<Candidate>, outcomes: seq<Outcome>, wanted: set<Outcome>)
    requires |outcomes| <= |candidates| && NoDuplicates(candidates)
    ensures NoDuplicates(Pick(candidates, outcomes, wanted))
    ensures forall c :: c in Pick(candidates, outcomes, wanted) ==> c in candidates[..|outcomes|]
  {
    if outcomes != [] {
      var last := |outcomes| - 1;
      PickMembers(candidates, outcomes[..last], wanted);
      assert candidates[..last + 1] == candidates[..last] + [candidates[last]];
      assert candidates[last] !in candidates[..last];
    }
  }

  /** The daemon and the record store while a cleanup runs; anything may change between two calls. */
  class Inventoried {
    ghost var log: seq<Event>

    constructor ()
      ensures log == []
    {
      log := [];
    }

    /** A plan of a fresh inventory; collecting it may fail. */
    method Replan(selection: Selection) returns (r: Result<Plan, string>, ghost snapshot: Snapshot)
      modifies this
      ensures log == old(log) + [if r.Success? then Inventory(snapshot) else Unavailable]
      ensures r.Success? ==> Acceptable(snapshot) && r.value == PlanOf(snapshot, selection)
    {
      var collected: Snapshot := *;
      snapshot := collected;
      r := BuildCleanupPlan(collected, selection);
      var unavailable: bool := *;
      if unavailable { r := Failure("inventory is unavailable"); }
      log := log + [if r.Success? then Inventory(snapshot) else Unavailable];
    }

    method Delete(candidate: Candidate) returns (ok: bool)
      modifies this
      ensures log == old(log) + [Removal(candidate, ok)]
    {
      ok := *;
      log := log + [Removal(candidate, ok)];
    }

    /** executeCleanupPlan */
    method Execute(reviewed: Plan) returns (r: Result<Execution, string>, ghost turns: seq<Turn>)
      requires log == []
      modifies this
      ensures Performed(log, reviewed, turns, r.Success?)
      ensures Guarded(log, reviewed) && NoDuplicates(Removals(log))
      ensures Removals(log) == Pick(reviewed.candidates, Outcomes(reviewed, turns), {Removed, FailedRemoval})
      ensures r.Success? ==> r.value == ByOutcome(reviewed, turns)
    {
      hide PlanOf, Acceptable, Events, Outcomes, Pick, ByOutcome, Guarded, Underway, Removals;
      turns := [];
      NothingDone(reviewed);
      var current, first := Replan(reviewed.selection);
      if current.Failure? {
        FirstReplan(log, reviewed);
        return Failure(current.error), turns;
      }
      FirstReplan(log, reviewed);
      if current.value != reviewed { return Failure("Cleanup inventory changed after preview."), turns; }
      CandidatesDistinct(first, reviewed.selection);
      var result := Execution([], [], []);
      BeginsUnderway(log, reviewed, first);
      for i := 0 to |reviewed.candidates|
        invariant |turns| == i && Underway(log, reviewed, first, turns) && result == ByOutcome(reviewed, turns)
      {
        var candidate := reviewed.candidates[i];
        ghost var before := log;
        var revalidated, snapshot := Replan(reviewed.selection);
        if revalidated.Failure? {
          Interrupted(before, log, reviewed, first, turns);
          return Failure(revalidated.error), turns;
        }
        ghost var turn := Turn(snapshot, true);
        if candidate !in revalidated.value.candidates {
          result := result.(preserved := result.preserved + [candidate]);
        } else {
          var ok := Delete(candidate);
          turn := Turn(snapshot, ok);
          if ok {
            result := result.(removed := result.removed + [candidate]);
          } else {
            result := result.(failed := result.failed + [candidate]);
          }
        }
        TurnTaken(before, log, reviewed, first, turns, turn);
        ResultAdds(reviewed, turns, turn);
        turns := turns + [turn];
      }
      Finished(log, reviewed, first, turns);
      r := Success(result);
    }
  }

  /** The three lists of an execution: the candidates with each outcome, in reviewed order. */
  ghost function ByOutcome(reviewed: Plan, turns: seq<Turn>): Execution
    requires |turns| <= |reviewed.candidates|
  {
    var outcomes := Outcomes(reviewed, turns);
    Execution(Pick(reviewed.candidates, outcomes, {Removed}), Pick(reviewed.candidates, outcomes, {Kept}),
              Pick(reviewed.candidates, outcomes, {FailedRemoval}))
  }

  /** After these turns of the loop. */
  ghost predicate Underway(log: seq<Event>, reviewed: Plan, first: Snapshot, turns: seq<Turn>) {
    && |turns| <= |reviewed.candidates| && NoDuplicates(reviewed.candidates)
    && PlanOf(first, reviewed.selection) == reviewed
    && log == [Inventory(first)] + Events(reviewed, turns)
    && Guarded(log, reviewed)
    && Removals(log) == Pick(reviewed.candidates, Outcomes(reviewed, turns), {Removed, FailedRemoval})
  }

  lemma FirstReplan(log: seq<Event>, reviewed: Plan)
    requires |log| == 1 && !log[0].Removal?
    ensures Guarded(log, reviewed) && Removals(log) == []
  {
    hide PlanOf;
    assert log[..0] == [] && Removals(log) == Removals([]) + [];
  }

  lemma BeginsUnderway(log: seq<Event>, reviewed: Plan, first: Snapshot)
    requires log == [Inventory(first)] && NoDuplicates(reviewed.candidates)
             && PlanOf(first, reviewed.selection) == reviewed
    ensures Underway(log, reviewed, first, []) && ByOutcome(reviewed, []) == Execution([], [], [])
  {
    NothingDone(reviewed);
    FirstReplan(log, reviewed);
    hide Guarded, Removals, PlanOf;
  }

  /** One turn: a fresh inventory, and a removal exactly when the candidate is in it again. */
  lemma TurnTaken(before: seq<Event>, after: seq<Event>, reviewed: Plan, first: Snapshot, turns: seq<Turn>, turn: Turn)
    requires Underway(before, reviewed, first, turns) && |turns| < |reviewed.candidates|
    requires after == before + TurnEvents(reviewed.selection, reviewed.candidates[|turns|], turn)
    ensures Underway(after, reviewed, first, turns + [turn])
  {
    hide PlanOf, Guarded, Removals, Pick, Outcomes, Events;
    var c := reviewed.candidates[|turns|];
    var listed := before + [Inventory(turn.snapshot)];
    TurnAdds(reviewed, turns, turn);
    OutcomeAdds(reviewed.candidates, Outcomes(reviewed, turns), OutcomeOf(reviewed.selection, c, turn));
    Associates([Inventory(first)], Events(reviewed, turns), TurnEvents(reviewed.selection, c, turn));
    ReplanKeeps(before, listed, reviewed);
    if OutcomeOf(reviewed.selection, c, turn) == Kept {
      assert after == listed;
    } else {
      assert after == listed + [Removal(c, turn.ok)];
      RemovalAllowed(listed, after, reviewed, first, c);
      RemovalKeeps(listed, after, reviewed);
    }
  }

  lemma RemovalAllowed(listed: seq<Event>, after: seq<Event>, reviewed: Plan, first: Snapshot, c: Candidate)
    requires |listed| >= 2 && listed[0] == Inventory(first) && PlanOf(first, reviewed.selection) == reviewed
    requires listed[|listed| - 1].Inventory? && c in reviewed.candidates
    requires c in PlanOf(listed[|listed| - 1].snapshot, reviewed.selection).candidates
    requires |after| == |listed| + 1 && after[..|listed|] == listed && after[|listed|].Removal?
             && after[|listed|].candidate == c
    ensures GuardedAt(after, |listed|, reviewed)
  {
    assert after[0] == listed[0] && after[|listed| - 1] == listed[|listed| - 1];
  }

  lemma ResultAdds(reviewed: Plan, turns: seq<Turn>, turn: Turn)
    requires |turns| < |reviewed.candidates|
    ensures var c, before, after :=
              reviewed.candidates[|turns|], ByOutcome(reviewed, turns), ByOutcome(reviewed, turns + [turn]);
            after == match OutcomeOf(reviewed.selection, c, turn)
                     case Removed => before.(removed := before.removed + [c])
                     case Kept => before.(preserved := before.preserved + [c])
                     case FailedRemoval => before.(failed := before.failed + [c])
  {
    hide PlanOf, Outcomes, OutcomeOf, Pick, Events, TurnEvents;
    var outcome := OutcomeOf(reviewed.selection, reviewed.candidates[|turns|], turn);
    TurnAdds(reviewed, turns, turn);
    OutcomeAdds(reviewed.candidates, Outcomes(reviewed, turns), outcome);
    EmptySides(Pick(reviewed.candidates, Outcomes(reviewed, turns), {Removed}));
    EmptySides(Pick(reviewed.candidates, Outcomes(reviewed, turns), {Kept}));
    EmptySides(Pick(reviewed.candidates, Outcomes(reviewed, turns), {FailedRemoval}));
  }

  /** The run ends early when the inventory of the next turn cannot be collected. */
  lemma Interrupted(before: seq<Event>, after: seq<Event>, reviewed: Plan, first: Snapshot, turns: seq<Turn>)
    requires Underway(before, reviewed, first, turns) && |turns| < |reviewed.candidates|
    requires after == before + [Unavailable]
    ensures Performed(after, reviewed, turns, false) && Guarded(after, reviewed) && NoDuplicates(Removals(after))
    ensures Removals(after) == Pick(reviewed.candidates, Outcomes(reviewed, turns), {Removed, FailedRemoval})
  {
    hide PlanOf, Guarded, Removals, Pick, Outcomes, Events;
    ReplanKeeps(before, after, reviewed);
    OutcomesDistinct(reviewed, turns);
  }

  lemma Finished(log: seq<Event>, reviewed: Plan, first: Snapshot, turns: seq<Turn>)
    requires Underway(log, reviewed, first, turns) && |turns| == |reviewed.candidates|
    ensures Performed(log, reviewed, turns, true) && Guarded(log, reviewed) && NoDuplicates(Removals(log))
    ensures Removals(log) == Pick(reviewed.candidates, Outcomes(reviewed, turns), {Removed, FailedRemoval})
  {
    hide PlanOf, Guarded, Removals, Pick, Outcomes, Events;
    OutcomesDistinct(reviewed, turns);
    EmptySides(log);
  }

  lemma NothingDone(reviewed: Plan)
    ensures Outcomes(reviewed, []) == [] && Events(reviewed, []) == []
    ensures forall wanted :: Pick(reviewed.candidates, [], wanted) == []
  {
  }

  lemma OutcomesDistinct(reviewed: Plan, turns: seq<Turn>)
    requires |turns| <= |reviewed.candidates| && NoDuplicates(reviewed.candidates)
    ensures NoDuplicates(Pick(reviewed.candidates, Outcomes(reviewed, turns), {Removed, FailedRemoval}))
  {
    PickMembers(reviewed.candidates, Outcomes(reviewed, turns), {Removed, FailedRemoval});
  }

  lemma PrefixKeeps(before: seq<Event>, after: seq<Event>, reviewed: Plan)
    requires Guarded(before, reviewed) && |before| <= |after| && after[..|before|] == before
    ensures forall k :: 0 <= k < |before| ==> GuardedAt(after, k, reviewed)
  {
    hide PlanOf;
    forall k | 0 <= k < |before|
      ensures GuardedAt(after, k, reviewed)
    {
      assert GuardedAt(before, k, reviewed) && after[k] == before[k] && after[0] == before[0];
      if k > 0 { assert after[k - 1] == before[k - 1]; }
    }
  }

  lemma ReplanKeeps(before: seq<Event>, after: seq<Event>, reviewed: Plan)
    requires Guarded(before, reviewed)
    requires |after| == |before| + 1 && after[..|before|] == before && !after[|before|].Removal?
    ensures Guarded(after, reviewed) && Removals(after) == Removals(before)
  {
    PrefixKeeps(before, after, reviewed);
    hide PlanOf;
  }

  lemma RemovalKeeps(before: seq<Event>, after: seq<Event>, reviewed: Plan)
    requires Guarded(before, reviewed)
    requires |after| == |before| + 1 && after[..|before|] == before && after[|before|].Removal?
    requires GuardedAt(after, |before|, reviewed)
    ensures Guarded(after, reviewed) && Removals(after) == Removals(before) + [after[|before|].candidate]
  {
    hide GuardedAt, PlanOf;
    PrefixKeeps(before, after, reviewed);
    assert after[..|after| - 1] == before;
  }

  lemma OutcomeAdds(candidates: seq<Candidate>, outcomes: seq<Outcome>, outcome: Outcome)
    requires |outcomes| < |candidates|
    ensures forall wanted :: Pick(candidates, outcomes + [outcome], wanted)
              == Pick(candidates, outcomes, wanted) + if outcome in wanted then [candidates[|outcomes|]] else []
  {
    assert (outcomes + [outcome])[..|outcomes|] == outcomes;
  }
}
