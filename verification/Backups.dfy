/**
 * Backup creation as it runs: pause, capture, resume, publish, with the process allowed to die or
 * fail at every effect and Docker allowed to apply a command to only some containers.
 * Models packages/cli/src/backups.ts; a checksum is represented by the bytes it identifies.
 */
module Backups {
  import opened Wrappers
  import opened Sorting
  import opened ManagedRuntime

  datatype Consistency = Live | Quiesced | StoppedOnly
  datatype Phase = PreparedPhase | PausedPhase | ArchiveReady | Resumed

  datatype Journal = Journal(installationId: string, computerId: string, backupId: string, stagingName: string,
                             operationId: string, phase: Phase, pauseTargets: seq<Binding>)

  /** A backup directory; in private staging any part of it may still be missing. */
  datatype Manifest = Manifest(id: string, sourceId: string, archiveName: string, checksum: string, encrypted: bool,
                               consistency: Consistency)
  datatype Directory = Directory(files: map<string, string>, manifest: Option<Manifest>)

  const PLAIN := "home.tar.gz"
  const SEALED := "home.tar.gz.enc"

  function StagingName(operationId: string): string { ".creating-" + operationId }

  /** parseBackupCreationJournal accepts the document. */
  predicate JournalParses(journal: Journal) {
    && journal.stagingName == StagingName(journal.operationId)
    && (forall t :: t in journal.pauseTargets ==> t.status == IsRunning)
    && UniqueBy(journal.pauseTargets, BindingId) && UniqueBy(journal.pauseTargets, BindingName)
  }

  /** What recovery demands of a published directory before it forgets the operation. */
  predicate Verified(directory: Directory, computerId: string) {
    && directory.manifest.Some?
    && directory.manifest.value.sourceId == computerId
    && directory.manifest.value.archiveName in directory.files
    && directory.files[directory.manifest.value.archiveName] == directory.manifest.value.checksum
  }

  /** A published backup is whole: one archive of the complete home, named and checksummed by its manifest. */
  predicate Whole(directory: Directory, computerId: string, home: string, sealed: string) {
    && Verified(directory, computerId)
    && var manifest := directory.manifest.value;
       directory.files == map[manifest.archiveName := if manifest.encrypted then sealed else home]
  }

  /** The manifest says what was asked for. */
  predicate Labelled(directory: Directory, id: string, encrypted: bool, consistency: Consistency) {
    && directory.manifest.Some? && directory.manifest.value.id == id
    && directory.manifest.value.encrypted == encrypted && directory.manifest.value.consistency == consistency
  }

  function SetStatus(runtime: seq<Binding>, id: string, status: Status): seq<Binding> {
    Map(runtime, (b: Binding) => if b.id == id then b.(status := status) else b)
  }

  /** Every recorded target is still there, running or paused by this operation. */
  predicate Held(targets: seq<Binding>, runtime: seq<Binding>) {
    targets != [] ==>
      && |runtime| == |targets|
      && forall i :: 0 <= i < |targets| ==> runtime[i] == targets[i] || runtime[i] == targets[i].(status := IsPaused)
  }

  /** The runtime that resuming leads back to. */
  function Restored(runtime: seq<Binding>, journal: Option<Journal>): seq<Binding> {
    if journal.Some? && journal.value.pauseTargets != [] then journal.value.pauseTargets else runtime
  }

  predicate AllArePaused(targets: seq<Binding>, runtime: seq<Binding>) {
    |targets| <= |runtime| && forall i :: 0 <= i < |targets| ==> runtime[i].status == IsPaused
  }

  function PausedIds(targets: seq<Binding>, runtime: seq<Binding>): seq<string> {
    if targets == [] then []
    else (if targets[0].(status := IsPaused) in runtime then [targets[0].id] else []) + PausedIds(targets[1..], runtime)
  }

  /** After unpausing: nothing named is paused any more, everything else is as it was. */
  predicate Reached(before: seq<Binding>, ids: seq<string>, status: Status, after: seq<Binding>) {
    && |after| == |before|
    && forall i :: 0 <= i < |before| ==>
         after[i] == if before[i].id in ids then before[i].(status := status) else before[i]
  }

  lemma SetStatusKeepsHeld(targets: seq<Binding>, runtime: seq<Binding>, id: string, status: Status)
    requires Held(targets, runtime) && targets != [] && status in {IsRunning, IsPaused}
    requires forall t :: t in targets ==> t.status == IsRunning
    ensures Held(targets, SetStatus(runtime, id, status))
  {
    forall i | 0 <= i < |targets|
      ensures SetStatus(runtime, id, status)[i] == targets[i]
              || SetStatus(runtime, id, status)[i] == targets[i].(status := IsPaused)
    {
      assert targets[i] in targets;
    }
  }

  lemma {:induction false} PausedIdsComplete(targets: seq<Binding>, runtime: seq<Binding>)
    ensures forall t :: t in targets && t.(status := IsPaused) in runtime ==> t.id in PausedIds(targets, runtime)
    ensures forall id :: id in PausedIds(targets, runtime) ==>
              exists t :: t in targets && t.id == id && t.(status := IsPaused) in runtime
  {
    if targets != [] {
      PausedIdsComplete(targets[1..], runtime);
    }
  }

  /** Unpausing exactly the paused targets leads back to the recorded runtime. */
  lemma UnpausedIsRestored(targets: seq<Binding>, before: seq<Binding>, after: seq<Binding>)
    requires Held(targets, before) && targets != []
    requires forall t :: t in targets ==> t.status == IsRunning
    requires Reached(before, PausedIds(targets, before), IsRunning, after)
    ensures after == targets
  {
    PausedIdsComplete(targets, before);
    forall i | 0 <= i < |targets|
      ensures after[i] == targets[i]
    {
      assert targets[i] in targets;
      if before[i] != targets[i] {
        assert before[i] in before;
      }
    }
  }

  lemma NoneMeansRestored(targets: seq<Binding>, runtime: seq<Binding>)
    requires Held(targets, runtime) && targets != [] && PausedIds(targets, runtime) == []
    ensures runtime == targets
  {
    PausedIdsComplete(targets, runtime);
    forall i | 0 <= i < |targets|
      ensures runtime[i] == targets[i]
    {
      assert targets[i] in targets && runtime[i] in runtime;
    }
  }

  /** The installation on disk, Docker, and the process that makes a backup. */
  class Host {
    const installationId: string
    const computerId: string
    /** Names of the computer's managed containers, in topology order. */
    const expected: seq<string>
    /** The durable home and what encrypting its archive gives. */
    const home: string
    const sealed: string
    /** When false, no effect fails and the process does not die. */
    var faulty: bool
    var runtime: seq<Binding>
    var journal: Option<Journal>
    var staging: map<string, Directory>
    var published: map<string, Directory>

    /** What holds between any two effects. */
    ghost predicate Recoverable()
      reads this
    {
      match journal
      case None => staging == map[]
      case Some(j) =>
        && JournalParses(j) && j.installationId == installationId && j.computerId == computerId
        && staging.Keys <= {j.stagingName}
        && (j.stagingName in staging ==> j.backupId !in published)
        && (j.backupId in published ==> Whole(published[j.backupId], computerId, home, sealed))
        && Held(j.pauseTargets, runtime)
        && (j.pauseTargets != [] ==>
              Observe(expected, j.pauseTargets) == Observation(IsRunning, Complete, j.pauseTargets))
    }

    constructor (installationId: string, computerId: string, expected: seq<string>, home: string, sealed: string,
                 runtime: seq<Binding>)
      ensures Recoverable() && journal.None? && this.runtime == runtime
    {
      this.installationId, this.computerId, this.expected, this.home, this.sealed :=
        installationId, computerId, expected, home, sealed;
      this.runtime, faulty, journal, staging, published := runtime, true, None, map[], map[];
    }

    /** Every container that was not running before is exactly as it was, at this very moment. */
    twostate predicate OthersUntouched()
      reads this
    {
      var before := old(Restored(runtime, journal));
      |runtime| == |before|
        && forall i :: 0 <= i < |before| && before[i].status != IsRunning ==> runtime[i] == before[i]
    }

    /** Every backup published so far is untouched, and at most `id` is new and whole. */
    twostate predicate OnlyPublishes(id: string)
      reads this
    {
      && (forall other :: other in old(published) ==> other in published && published[other] == old(published)[other])
      && (forall other :: other in published && other !in old(published) ==>
            other == id && Whole(published[other], computerId, home, sealed))
    }

    // ----- effects -----

    method WriteJournal(next: Journal) returns (e: Effect)
      modifies this`journal
      ensures journal == old(journal) || journal == Some(next)
      ensures e.Ok? ==> journal == Some(next)
      ensures !faulty ==> e.Ok?
    {
      var failed, lost: bool := *, *;
      if faulty && failed {
        if !lost { journal := Some(next); }
        return Crashed;
      }
      var refused: bool := *;
      if faulty && refused { return Failed; }
      journal := Some(next);
      return Ok;
    }

    method RemoveJournal() returns (e: Effect)
      modifies this`journal
      ensures journal == old(journal) || journal == None
      ensures e.Ok? ==> journal == None
      ensures !faulty ==> e.Ok?
    {
      var failed, lost, died: bool := *, *, *;
      if faulty && failed {
        if !lost { journal := None; }
        return if died then Crashed else Failed;
      }
      journal := None;
      return Ok;
    }

    /** `docker pause` or `docker unpause`: container by container, cut or refused anywhere. */
    method Command(ids: seq<string>, status: Status, ghost targets: seq<Binding>) returns (e: Effect)
      requires status in {IsRunning, IsPaused} && Held(targets, runtime) && targets != []
      requires forall t :: t in targets ==> t.status == IsRunning
      modifies this`runtime
      ensures Held(targets, runtime)
      ensures e.Ok? ==> Reached(old(runtime), ids, status, runtime)
      ensures !faulty ==> e.Ok?
    {
      for i := 0 to |ids|
        invariant Held(targets, runtime) && Reached(old(runtime), ids[..i], status, runtime)
      {
        var cut, died: bool := *, *;
        if faulty && cut { return if died then Crashed else Failed; }
        SetStatusKeepsHeld(targets, runtime, ids[i], status);
        runtime := SetStatus(runtime, ids[i], status);
        assert ids[..i + 1] == ids[..i] + [ids[i]];
      }
      assert ids[..|ids|] == ids;
      var late: bool := *;
      return if faulty && late then Crashed else Ok;
    }

    method Observed() returns (e: Effect, observation: Observation)
      ensures observation == Observe(expected, runtime)
      ensures !faulty ==> e.Ok?
    {
      var failed: bool := *;
      return if faulty && failed then Failed else Ok, Observe(expected, runtime);
    }

    // ----- resuming -----

    /** sameBackupPauseTarget for every target, by immutable ID. */
    predicate TargetsMatch(targets: seq<Binding>, containers: seq<Binding>) {
      |containers| == |targets| && forall t :: t in targets ==> exists b :: b in containers && SameContainer(t, b)
    }

    predicate Coherent(observation: Observation) {
      observation.group == Complete && observation.status in {IsRunning, IsExited, IsCreated}
    }

    /** resumeBackupPauseTargets: only recorded targets that are paused are unpaused. */
    method ResumeTargets() returns (e: Effect)
      requires Recoverable() && journal.Some?
      modifies this`runtime
      ensures Recoverable() && Restored(runtime, journal) == old(Restored(runtime, journal))
      ensures e.Ok? ==> runtime == Restored(runtime, journal)
      ensures !faulty ==> e.Ok?
    {
      var targets := journal.value.pauseTargets;
      if targets == [] { return Ok; }
      HeldMatches(targets, runtime);
      HeldGroup(expected, targets, runtime);
      var observation;
      e, observation := Observed();
      if !e.Ok? { return; }
      if observation.group in {AbsentGroup, Partial} || !TargetsMatch(targets, observation.containers) {
        return Failed;
      }
      var paused := PausedIds(targets, observation.containers);
      if paused != [] {
        ghost var before := runtime;
        e := Command(paused, IsRunning, targets);
        if !e.Ok? { return; }
        UnpausedIsRestored(targets, before, runtime);
        e, observation := Observed();
        if !e.Ok? { return; }
        if !Coherent(observation) || !TargetsMatch(targets, observation.containers) { return Failed; }
        return Ok;
      }
      NoneMeansRestored(targets, runtime);
      return if Coherent(observation) then Ok else Failed;
    }

    // ----- recovery -----

    method RemoveStaging(name: string) returns (e: Effect)
      modifies this`staging
      ensures staging == old(staging) || staging == old(staging) - {name}
              || (name in old(staging) && staging.Keys == old(staging).Keys)
      ensures e.Ok? ==> staging == old(staging) - {name}
      ensures !faulty ==> e.Ok?
    {
      var failed, partly, died: bool := *, *, *;
      if faulty && failed {
        // files may already be gone while the directory is still there
        if name in staging && partly { staging := staging[name := Directory(map[], None)]; }
        return if died then Crashed else Failed;
      }
      staging := staging - {name};
      return Ok;
    }

    /** recoverPendingBackupCreation: resume, keep a verified publication, discard staging, forget. */
    method Recover() returns (e: Effect)
      requires Recoverable()
      modifies this`runtime, this`staging, this`journal
      ensures Recoverable() && Restored(runtime, journal) == old(Restored(runtime, journal))
      ensures e.Ok? ==> journal.None? && staging == map[] && runtime == old(Restored(runtime, journal))
      ensures journal == old(journal) || (journal.None? && staging == map[])
      ensures !faulty ==> e.Ok?
    {
      if journal.None? { return Ok; }
      var j := journal.value;
      if j.installationId != installationId { return Failed; }
      e := ResumeTargets();
      if !e.Ok? { return; }
      var unreadable: bool := *;
      if faulty && unreadable { return Failed; }
      if j.stagingName in staging && j.backupId in published { return Failed; }
      if j.backupId in published && !Verified(published[j.backupId], j.computerId) { return Failed; }
      if j.stagingName in staging {
        e := RemoveStaging(j.stagingName);
        if !e.Ok? { return; }
      }
      assert staging == map[];
      e := RemoveJournal();
    }

    // ----- creation -----

    method MakeStaging(name: string) returns (e: Effect)
      modifies this`staging
      ensures staging == old(staging)
              || (name !in old(staging) && staging == old(staging)[name := Directory(map[], None)])
      ensures e.Ok? ==> name !in old(staging) && staging == old(staging)[name := Directory(map[], None)]
      ensures !faulty && name !in old(staging) ==> e.Ok?
    {
      var failed, died: bool := *, *;
      if name in staging || (faulty && failed) { return if faulty && died then Crashed else Failed; }
      staging := staging[name := Directory(map[], None)];
      var late: bool := *;
      return if faulty && late then Crashed else Ok;
    }

    /** Writing one file of the staging directory; a cut leaves any part of it. */
    method WriteStaged(name: string, file: string, content: string) returns (e: Effect)
      requires name in staging
      modifies this`staging
      ensures staging.Keys == old(staging).Keys
      ensures e.Ok? ==>
                staging == old(staging)[name := old(staging)[name].(files := old(staging)[name].files[file := content])]
      ensures !faulty ==> e.Ok?
    {
      var failed, died: bool := *, *;
      var part: string := *;
      if faulty && failed {
        staging := staging[name := staging[name].(files := staging[name].files[file := part])];
        return if died then Crashed else Failed;
      }
      staging := staging[name := staging[name].(files := staging[name].files[file := content])];
      return Ok;
    }

    method RemoveStaged(name: string, file: string) returns (e: Effect)
      requires name in staging
      modifies this`staging
      ensures staging.Keys == old(staging).Keys
      ensures e.Ok? ==> staging == old(staging)[name := old(staging)[name].(files := old(staging)[name].files - {file})]
      ensures !faulty ==> e.Ok?
    {
      var failed, died: bool := *, *;
      if faulty && failed { return if died then Crashed else Failed; }
      staging := staging[name := staging[name].(files := staging[name].files - {file})];
      return Ok;
    }

    method WriteManifest(name: string, manifest: Manifest) returns (e: Effect)
      requires name in staging
      modifies this`staging
      ensures staging.Keys == old(staging).Keys
      ensures e.Ok? ==> staging == old(staging)[name := old(staging)[name].(manifest := Some(manifest))]
      ensures !faulty ==> e.Ok?
    {
      var failed, lost, died: bool := *, *, *;
      if faulty && failed && lost { return if died then Crashed else Failed; }
      staging := staging[name := staging[name].(manifest := Some(manifest))];
      return if faulty && failed then Crashed else Ok;
    }

    /** durableRename: the whole directory moves at once or not at all. */
    method Publish(name: string, id: string) returns (e: Effect)
      requires name in staging && id !in published
      modifies this`staging, this`published
      ensures (staging == old(staging) && published == old(published))
           || (staging == old(staging) - {name} && published == old(published)[id := old(staging)[name]])
      ensures e.Ok? ==> staging == old(staging) - {name} && published == old(published)[id := old(staging)[name]]
      ensures !faulty ==> e.Ok?
    {
      var failed, lost, died: bool := *, *, *;
      if faulty && failed && lost { return if died then Crashed else Failed; }
      published := published[id := staging[name]];
      staging := staging - {name};
      return if faulty && failed then if died then Crashed else Failed else Ok;
    }

    /** tar: only ever run while every recorded target is paused. */
    method Archive(name: string) returns (e: Effect)
      requires name in staging && journal.Some?
      requires AllArePaused(journal.value.pauseTargets, runtime)
      modifies this`staging
      ensures staging.Keys == old(staging).Keys
      ensures e.Ok? ==>
                staging == old(staging)[name := old(staging)[name].(files := old(staging)[name].files[PLAIN := home])]
      ensures !faulty ==> e.Ok?
    {
      e := WriteStaged(name, PLAIN, home);
    }

    /** Pausing the recorded targets, by immutable ID, and recording that all of them are paused. */
    method PauseTargets(j: Journal) returns (e: Effect)
      requires Recoverable() && journal == Some(j) && j.pauseTargets != []
      modifies this`runtime, this`journal
      ensures Recoverable() && journal.Some? && journal.value == j.(phase := journal.value.phase)
      ensures e.Ok? ==> AllArePaused(j.pauseTargets, runtime)
      ensures !faulty ==> e.Ok?
    {
      ghost var before := runtime;
      e := Command(Map(j.pauseTargets, BindingId), IsPaused, j.pauseTargets);
      if !e.Ok? { return; }
      AllPaused(j.pauseTargets, before, runtime);
      e := WriteJournal(j.(phase := PausedPhase));
    }

    /** The body of createBackup between its journal and its cleanup. */
    method Capture(j: Journal, encrypted: bool, consistency: Consistency) returns (e: Effect)
      requires Recoverable() && journal == Some(j) && runtime == Restored(runtime, journal)
      requires staging == map[] && j.backupId !in published && j.phase == PreparedPhase
      modifies this`runtime, this`journal, this`staging, this`published
      ensures Recoverable() && OnlyPublishes(j.backupId)
      ensures Restored(runtime, journal) == old(Restored(runtime, journal))
      ensures journal.None? || (journal.Some? && journal.value == j.(phase := journal.value.phase))
      ensures e.Ok? ==> journal.None? && runtime == old(runtime)
      ensures e.Ok? ==> j.backupId in published && Labelled(published[j.backupId], j.backupId, encrypted, consistency)
      ensures !faulty ==> e.Ok?
    {
      hide Held, Observe, Whole, JournalParses, Labelled;
      PhaseParses(j);
      var name, targets := j.stagingName, j.pauseTargets;
      e := MakeStaging(name);
      if !e.Ok? { return; }
      if targets != [] {
        e := PauseTargets(j);
        if !e.Ok? { return; }
      }
      assert journal.value.pauseTargets == targets && staging == map[name := Directory(map[], None)];
      e := Archive(name);
      if !e.Ok? { return; }
      e := WriteJournal(j.(phase := ArchiveReady));
      if !e.Ok? { return; }
      e := ResumeTargets();
      if !e.Ok? { return; }
      e := WriteJournal(j.(phase := Resumed));
      if !e.Ok? { return; }
      e := Finish(j, encrypted, consistency);
    }

    /** Encryption of the staged archive, which replaces it. */
    method SealArchive(name: string, encrypted: bool) returns (e: Effect, archiveName: string)
      requires staging == map[name := Directory(map[PLAIN := home], None)]
      modifies this`staging
      ensures staging.Keys == {name}
      ensures e.Ok? ==> staging == map[name := Directory(map[archiveName := if encrypted then sealed else home], None)]
      ensures !faulty ==> e.Ok?
    {
      archiveName := PLAIN;
      if !encrypted { return Ok, archiveName; }
      assert SEALED != PLAIN by { assert |SEALED| != |PLAIN|; }
      archiveName := SEALED;
      e := WriteStaged(name, SEALED, sealed);
      if !e.Ok? { return; }
      e := RemoveStaged(name, PLAIN);
      assert e.Ok? ==> staging[name].files == map[SEALED := sealed];
    }

    /** After resuming: validation, encryption, manifest, publication. */
    method Finish(j: Journal, encrypted: bool, consistency: Consistency) returns (e: Effect)
      requires Recoverable() && journal == Some(j.(phase := Resumed)) && runtime == Restored(runtime, journal)
      requires staging == map[j.stagingName := Directory(map[PLAIN := home], None)] && j.backupId !in published
      modifies this`journal, this`staging, this`published
      ensures Recoverable() && OnlyPublishes(j.backupId)
      ensures Restored(runtime, journal) == old(Restored(runtime, journal))
      ensures journal.None? || journal == old(journal)
      ensures e.Ok? ==> journal.None?
      ensures e.Ok? ==> j.backupId in published && Labelled(published[j.backupId], j.backupId, encrypted, consistency)
      ensures !faulty ==> e.Ok?
    {
      hide Held, Observe, JournalParses, Restored;
      var name := j.stagingName;
      var rejected: bool := *;
      if faulty && rejected { return Failed; }
      var archiveName;
      e, archiveName := SealArchive(name, encrypted);
      if !e.Ok? { return; }
      var content := staging[name].files[archiveName];
      var manifest := Manifest(j.backupId, computerId, archiveName, content, encrypted, consistency);
      e := WriteManifest(name, manifest);
      if !e.Ok? { return; }
      assert Whole(staging[name], computerId, home, sealed);
      e := Publish(name, j.backupId);
      RestoredAtRest(runtime, old(journal));
      if !e.Ok? { return; }
      e := RemoveJournal();
    }

    /** The journal of a new backup: it records the running containers that will be paused. */
    method Begin(quiesce: bool, observation: Observation, operationId: string, id: string)
      returns (e: Effect, j: Journal)
      requires journal.None? && staging == map[] && id !in published && observation == Observe(expected, runtime)
      requires UniqueBy(runtime, BindingId) && UniqueBy(runtime, BindingName)
      modifies this`journal
      ensures j.phase == PreparedPhase && j.backupId == id
      ensures Recoverable() && (journal.None? || journal == Some(j)) && runtime == Restored(runtime, journal)
      ensures e.Ok? ==> journal == Some(j)
      ensures !faulty ==> e.Ok?
    {
      var pauses := observation.group == Complete && observation.status == IsRunning && quiesce;
      var targets := if pauses then observation.containers else [];
      j := Journal(installationId, computerId, id, StagingName(operationId), operationId, PreparedPhase, targets);
      UniformRunning(expected, runtime);
      e := WriteJournal(j);
    }

    /** The checks of createBackup on its flags and on what it observes. */
    predicate Startable(checkpoint: bool, quiesce: bool, stopped: bool, observation: Observation) {
      && !(quiesce && stopped)
      && observation.group !in {Partial, Inconsistent}
      && (observation.group == AbsentGroup ==> observation.status == IsAbsent)
      && (stopped ==>
            observation.group == AbsentGroup
              || (observation.group == Complete && observation.status in {IsExited, IsCreated}))
      && ((checkpoint || quiesce) && observation.group == Complete ==>
            observation.status in {IsRunning, IsPaused, IsExited, IsCreated})
    }

    function ConsistencyOf(checkpoint: bool, quiesce: bool, stopped: bool): Consistency {
      if checkpoint || quiesce then Quiesced else if stopped then StoppedOnly else Live
    }

    /** createBackup; the two identifiers are the random ones of the operation. */
    method CreateBackup(checkpoint: bool, quiesce: bool, stopped: bool, encrypted: bool, operationId: string,
                        id: string)
      returns (e: Effect)
      requires Recoverable() && UniqueBy(runtime, BindingId) && UniqueBy(runtime, BindingName)
      requires id !in published
      modifies this`runtime, this`journal, this`staging, this`published
      ensures Recoverable() && OnlyPublishes(id) && OthersUntouched()
      ensures Restored(runtime, journal) == old(Restored(runtime, journal))
      ensures e.Ok? ==> journal.None? && staging == map[] && runtime == old(Restored(runtime, journal))
      ensures e.Ok? ==>
                id in published && Labelled(published[id], id, encrypted, ConsistencyOf(checkpoint, quiesce, stopped))
      ensures !faulty ==>
                (e.Ok? <==> Startable(checkpoint, quiesce, stopped, Observe(expected, old(Restored(runtime, journal)))))
      ensures !faulty && !e.Ok? ==> published == old(published) && (journal.None? || (quiesce && stopped))
    {
      if quiesce && stopped {
        e := Failed;
      } else {
        e := RecoverAndCreate(checkpoint, quiesce, stopped, encrypted, operationId, id);
      }
      NotRunningIsUntouched(journal, runtime);
    }

    /** Recovery of an earlier backup, the checks on what is observed, and the capture. */
    method RecoverAndCreate(checkpoint: bool, quiesce: bool, stopped: bool, encrypted: bool, operationId: string,
                            id: string)
      returns (e: Effect)
      requires Recoverable() && UniqueBy(runtime, BindingId) && UniqueBy(runtime, BindingName)
      requires id !in published && !(quiesce && stopped)
      modifies this`runtime, this`journal, this`staging, this`published
      ensures Recoverable() && OnlyPublishes(id)
      ensures Restored(runtime, journal) == old(Restored(runtime, journal))
      ensures e.Ok? ==> journal.None? && staging == map[] && runtime == old(Restored(runtime, journal))
      ensures e.Ok? ==>
                id in published && Labelled(published[id], id, encrypted, ConsistencyOf(checkpoint, quiesce, stopped))
      ensures !faulty ==>
                (e.Ok? <==> Startable(checkpoint, quiesce, stopped, Observe(expected, old(Restored(runtime, journal)))))
      ensures !faulty && !e.Ok? ==> published == old(published) && journal.None?
    {
      RestoredUnique(runtime, journal);
      hide Held, Observe, Whole, JournalParses, UniqueBy, Startable, Restored, Labelled;
      e := Recover();
      if !e.Ok? { return; }
      var observation, j;
      e, observation := Observed();
      if !e.Ok? { return; }
      if !Startable(checkpoint, quiesce, stopped, observation) { return Failed; }
      e, j := Begin(checkpoint || quiesce, observation, operationId, id);
      if !e.Ok? { return; }
      e := CaptureOrRecover(j, encrypted, ConsistencyOf(checkpoint, quiesce, stopped));
    }

    /** A capture that fails is cleaned up at once by the same recovery. */
    method CaptureOrRecover(j: Journal, encrypted: bool, consistency: Consistency) returns (e: Effect)
      requires Recoverable() && journal == Some(j) && runtime == Restored(runtime, journal)
      requires staging == map[] && j.backupId !in published && j.phase == PreparedPhase
      modifies this`runtime, this`journal, this`staging, this`published
      ensures Recoverable() && OnlyPublishes(j.backupId)
      ensures Restored(runtime, journal) == old(Restored(runtime, journal))
      ensures e.Ok? ==> journal.None? && staging == map[] && runtime == old(runtime)
      ensures e.Ok? ==> j.backupId in published && Labelled(published[j.backupId], j.backupId, encrypted, consistency)
      ensures !faulty ==> e.Ok?
    {
      hide Held, Observe, Whole, JournalParses, Restored, Labelled;
      e := Capture(j, encrypted, consistency);
      if e.Failed? {
        var recovered := Recover();
        if recovered.Crashed? { e := Crashed; }
      }
    }

    /** However often recovery is cut, one that is not leaves the runtime exactly as before the backup. */
    method RecoverEventually(crashes: nat)
      requires Recoverable()
      modifies this`faulty, this`runtime, this`staging, this`journal
      ensures journal.None? && staging == map[] && runtime == old(Restored(runtime, journal))
    {
      faulty := true;
      for attempt := 0 to crashes
        invariant Recoverable() && Restored(runtime, journal) == old(Restored(runtime, journal))
      {
        var _ := Recover();
      }
      faulty := false;
      var _ := Recover();
    }
  }

  /** In any state a backup can leave, a container that was not running before it is as it was. */
  lemma NotRunningIsUntouched(journal: Option<Journal>, runtime: seq<Binding>)
    requires journal.Some? ==> JournalParses(journal.value) && Held(journal.value.pauseTargets, runtime)
    ensures var before := Restored(runtime, journal);
            |runtime| == |before|
              && forall i :: 0 <= i < |before| && before[i].status != IsRunning ==> runtime[i] == before[i]
  {
    if journal.Some? && journal.value.pauseTargets != [] {
      var targets := journal.value.pauseTargets;
      assert forall i :: 0 <= i < |targets| ==> targets[i] in targets;
    }
  }

  /** After pausing every recorded target, all of them are paused. */
  lemma AllPaused(targets: seq<Binding>, before: seq<Binding>, after: seq<Binding>)
    requires Held(targets, before) && targets != [] && Reached(before, Map(targets, BindingId), IsPaused, after)
    ensures AllArePaused(targets, after)
  {
    forall i | 0 <= i < |targets|
      ensures after[i].status == IsPaused
    {
      assert Map(targets, BindingId)[i] == before[i].id;
    }
  }

  lemma RestoredAtRest(runtime: seq<Binding>, journal: Option<Journal>)
    requires runtime == Restored(runtime, journal)
    ensures Restored(runtime, None) == runtime
  {
  }

  lemma PhaseParses(j: Journal)
    requires JournalParses(j)
    ensures forall phase :: JournalParses(j.(phase := phase))
  {
  }

  /** Docker's identifiers are unique, so the runtime that recovery restores has unique ones too. */
  lemma RestoredUnique(runtime: seq<Binding>, journal: Option<Journal>)
    requires UniqueBy(runtime, BindingId) && UniqueBy(runtime, BindingName)
    requires journal.Some? ==> JournalParses(journal.value)
    ensures UniqueBy(Restored(runtime, journal), BindingId) && UniqueBy(Restored(runtime, journal), BindingName)
  {
  }

  lemma UniformRunning(expected: seq<string>, runtime: seq<Binding>)
    ensures var o := Observe(expected, runtime);
            o.group == Complete ==> o.containers == runtime && forall b :: b in runtime ==> b.status == o.status
  {
  }

  lemma HeldMatches(targets: seq<Binding>, runtime: seq<Binding>)
    requires Held(targets, runtime) && targets != []
    ensures |runtime| == |targets| && forall t :: t in targets ==> exists b :: b in runtime && SameContainer(t, b)
  {
    forall t | t in targets
      ensures exists b :: b in runtime && SameContainer(t, b)
    {
      var i :| 0 <= i < |targets| && targets[i] == t;
      assert runtime[i] in runtime && SameContainer(t, runtime[i]);
    }
  }

  /** With some targets paused the group is complete or mixed, but never absent or partial. */
  lemma HeldGroup(expected: seq<string>, targets: seq<Binding>, runtime: seq<Binding>)
    requires Held(targets, runtime) && targets != []
    requires Observe(expected, targets) == Observation(IsRunning, Complete, targets)
    ensures Observe(expected, runtime).group in {Complete, Inconsistent}
            && Observe(expected, runtime).containers == runtime
  {
    forall b | b in runtime
      ensures b.name in expected
    {
      var i :| 0 <= i < |runtime| && runtime[i] == b;
      assert targets[i] in targets;
    }
  }
}
