/** directory-replacement.ts: publish a staged directory by two renames, roll back when the
    second one fails, and repair at the next start what a crash left behind.

    Every file-system call may succeed, fail, or be the last thing the process does before
    it stops, before or after the call took effect. */
module DirectoryReplacement {
  import opened Prelude

  /** The entries of the parent directory that belong to one destination. */
  datatype Name = Destination | Stage(id: nat) | Backup(id: nat)

  /** The contents of a directory. */
  type Tree = int

  type Entries = map<Name, Tree>

  datatype Error = Missing | Other

  /** How a step ended; `Crashed` means that the process no longer exists. */
  datatype Outcome = Done | Failed(error: Error) | Crashed

  predicate AtMostOneBackup(entries: Entries) {
    forall m, n | m in entries && n in entries && m.Backup? && n.Backup? :: m == n
  }

  ghost function BackupTree(entries: Entries): Option<Tree> {
    if n :| n in entries && n.Backup? then Some(entries[n]) else None
  }

  /** The one published tree: what stands at the destination or, while nothing does, in the
      only backup. Nothing is published when there is neither. */
  ghost predicate Publishes(entries: Entries, tree: Option<Tree>) {
    && AtMostOneBackup(entries)
    && tree == if Destination in entries then Some(entries[Destination]) else BackupTree(entries)
  }

  /** Directories that hold at most one backup publish exactly one tree, or none. */
  lemma PublishesSomething(entries: Entries) returns (tree: Option<Tree>)
    requires AtMostOneBackup(entries)
    ensures Publishes(entries, tree)
    ensures forall other :: Publishes(entries, other) ==> other == tree
  {
    tree := if Destination in entries then Some(entries[Destination]) else BackupTree(entries);
  }

  /** Only the destination, `staging` and `backup` are there. */
  ghost predicate Tidy(entries: Entries, staging: Name, backup: Name) {
    forall n | n in entries :: n == Destination || n == staging || n == backup
  }

  function Moved(entries: Entries, source: Name, target: Name): Entries
    requires source in entries
  {
    entries[target := entries[source]] - {source}
  }

  class Disk {
    var entries: Entries
    /** How many calls did not do what was asked, and how many removals are among them. */
    ghost var faults: nat
    ghost var unremoved: nat

    constructor (entries: Entries)
      ensures this.entries == entries && faults == 0 && unremoved == 0
    {
      this.entries := entries;
      faults, unremoved := 0, 0;
    }

    /** A call ends as it is due to, or is a fault. */
    twostate predicate Called(o: Outcome, due: Outcome)
      reads `faults
    {
      && old(faults) <= faults <= old(faults) + 1
      && (faults == old(faults) ==> o == due)
      && (o == Done ==> faults == old(faults))
    }

    /** `mkdir`, `readdir`, `lstat`: no effect on the entries. */
    method Look() returns (o: Outcome)
      modifies this`faults
      ensures o == Done || o == Failed(Other) || o == Crashed
      ensures Called(o, Done)
    {
      o := *;
      if o != Done {
        o := if o == Crashed then Crashed else Failed(Other);
        faults := faults + 1;
      }
    }

    /** `mkdtemp`: a new, empty directory. */
    method MakeDirectory(name: Name, empty: Tree) returns (o: Outcome)
      modifies this`entries, this`faults
      ensures o == Done ==> entries == old(entries)[name := empty]
      ensures o.Failed? ==> entries == old(entries)
      ensures o == Crashed ==> entries == old(entries) || entries == old(entries)[name := empty]
      ensures Called(o, Done)
    {
      var happens: bool := *;
      o := *;
      if o == Done || (o == Crashed && happens) {
        entries := entries[name := empty];
      }
      if o != Done {
        faults := faults + 1;
      }
    }

    /** `prepare`: writes files below `name`, some or all of them. */
    method Fill(name: Name, plan: Tree) returns (o: Outcome)
      requires name in entries
      modifies this`entries, this`faults
      ensures o == Done ==> entries == old(entries)[name := plan]
      ensures entries.Keys == old(entries).Keys && forall n | n in entries && n != name :: entries[n] == old(entries)[n]
      ensures Called(o, Done)
    {
      o := *;
      var part: Tree := *;
      entries := entries[name := if o == Done then plan else part];
      if o != Done {
        faults := faults + 1;
      }
    }

    /** `rename` of a directory: atomic, refuses a missing source and an existing target. */
    method Rename(source: Name, target: Name) returns (o: Outcome)
      requires source != target
      modifies this`entries, this`faults
      ensures o == Done ==> source in old(entries) && target !in old(entries) && entries == Moved(old(entries), source, target)
      ensures o.Failed? ==> entries == old(entries)
      ensures o == Failed(Missing) ==> source !in entries
      ensures o == Crashed && entries != old(entries) ==>
        source in old(entries) && target !in old(entries) && entries == Moved(old(entries), source, target)
      ensures Called(o,
        if source !in old(entries) then Failed(Missing) else if target in old(entries) then Failed(Other) else Done)
    {
      var possible := source in entries && target !in entries;
      var happens: bool := *;
      o := *;
      if o == Done || o == Failed(Missing) {
        o := if source !in entries then Failed(Missing) else if target in entries then Failed(Other) else Done;
      } else {
        faults := faults + 1;
      }
      if possible && (o == Done || (o == Crashed && happens)) {
        entries := Moved(entries, source, target);
      }
    }

    /** `rm -rf`: removes file by file, so that a failure can leave any part of the tree. */
    method Remove(name: Name) returns (o: Outcome)
      modifies this
      ensures o == Done ==> entries == old(entries) - {name}
      ensures entries.Keys <= old(entries).Keys && old(entries).Keys - {name} <= entries.Keys
      ensures forall n | n in entries && n != name :: entries[n] == old(entries)[n]
      ensures Called(o, Done) && unremoved == old(unremoved) + if o == Done then 0 else 1
    {
      o := *;
      var gone: bool, rest: Tree := *, *;
      if o == Done || gone {
        entries := entries - {name};
      } else if name in entries {
        entries := entries[name := rest];
      }
      if o != Done {
        faults, unremoved := faults + 1, unremoved + 1;
      }
    }
  }

  /** Nothing changed except for stages that went away or came. */
  ghost predicate SameButStages(before: Entries, after: Entries) {
    && (forall n | n in after && !n.Stage? :: n in before && after[n] == before[n])
    && (forall n | n in before && !n.Stage? :: n in after)
  }

  lemma StagesDoNotPublish(before: Entries, after: Entries)
    requires SameButStages(before, after)
    ensures AtMostOneBackup(before) <==> AtMostOneBackup(after)
    ensures forall tree :: Publishes(before, tree) ==> Publishes(after, tree)
  {
  }

  /** Lines 35-41: drop the stages that earlier runs left behind. */
  method RemoveStages(disk: Disk) returns (o: Outcome)
    modifies disk
    ensures SameButStages(old(disk.entries), disk.entries)
    ensures AtMostOneBackup(disk.entries) <==> old(AtMostOneBackup(disk.entries))
    ensures forall tree :: Publishes(old(disk.entries), tree) ==> Publishes(disk.entries, tree)
    ensures o == Done ==> forall n | n in disk.entries :: !n.Stage?
    ensures disk.Called(o, Done) && (o == Done ==> disk.unremoved == old(disk.unremoved))
    ensures disk.unremoved >= old(disk.unremoved)
    ensures disk.entries.Keys <= old(disk.entries).Keys
  {
    o := Done;
    var stages := set n | n in disk.entries && n.Stage?;
    while stages != {}
      invariant forall n | n in disk.entries && n.Stage? :: n in stages
      invariant forall n | n in stages :: n.Stage?
      invariant SameButStages(old(disk.entries), disk.entries)
      invariant disk.entries.Keys <= old(disk.entries).Keys
      invariant o == Done && disk.faults == old(disk.faults) && disk.unremoved == old(disk.unremoved)
      decreases stages
    {
      var stage :| stage in stages;
      o := disk.Remove(stage);
      if o != Done {
        break;
      }
      stages := stages - {stage};
    }
    StagesDoNotPublish(old(disk.entries), disk.entries);
  }

  /** Lines 28-57. Several backups cannot be told apart, so the code refuses to choose. */
  method RecoverInterruptedReplacement(disk: Disk) returns (o: Outcome)
    modifies disk
    ensures forall tree :: Publishes(old(disk.entries), tree) ==> Publishes(disk.entries, tree)
    ensures o == Done ==> forall n | n in disk.entries :: n == Destination
    ensures !old(AtMostOneBackup(disk.entries)) ==> o != Done && SameButStages(old(disk.entries), disk.entries)
    ensures Destination in old(disk.entries) ==>
      Destination in disk.entries && disk.entries[Destination] == old(disk.entries)[Destination]
    ensures disk.entries.Keys <= old(disk.entries).Keys + {Destination}
    ensures old(disk.faults) <= disk.faults <= old(disk.faults) + 1
    ensures o == Done ==> disk.faults == old(disk.faults) && disk.unremoved == old(disk.unremoved)
    ensures disk.unremoved >= old(disk.unremoved)
    ensures disk.faults == old(disk.faults) && old(AtMostOneBackup(disk.entries)) ==> o == Done
  {
    o := disk.Look();
    if o != Done { return; }
    o := RemoveStages(disk);
    if o != Done { return; }
    if !AtMostOneBackup(disk.entries) {
      return Failed(Other);
    }
    if forall n | n in disk.entries :: !n.Backup? { return; }
    var backup :| backup in disk.entries && backup.Backup?;
    o := disk.Look();
    if o != Done { return; }
    if Destination in disk.entries {
      o := disk.Remove(backup);
    } else {
      o := disk.Rename(backup, Destination);
    }
  }

  /** Lines 88-109: the stage takes the free destination, or the backup comes back. */
  method SwapIn(disk: Disk, staging: Name, backup: Name, backupExists: bool, ghost plan: Tree)
    returns (o: Outcome, stagingExists: bool)
    requires staging.Stage? && backup.Backup? && Tidy(disk.entries, staging, backup)
    requires staging in disk.entries && disk.entries[staging] == plan && Destination !in disk.entries
    requires backupExists <==> backup in disk.entries
    modifies disk
    ensures Tidy(disk.entries, staging, backup)
    ensures forall tree :: Publishes(old(disk.entries), tree) ==>
      Publishes(disk.entries, tree) || Publishes(disk.entries, Some(plan))
    ensures o == Done ==> !stagingExists && disk.entries == map[Destination := plan]
    ensures disk.faults >= old(disk.faults) && (disk.faults == old(disk.faults) ==> o == Done)
    // One fault does not take the destination away.
    ensures disk.faults <= old(disk.faults) + 1 && o != Crashed && backupExists ==>
      && Destination in disk.entries
      && (disk.entries[Destination] == plan || disk.entries[Destination] == old(disk.entries)[backup])
    ensures disk.faults <= old(disk.faults) + 1 && o != Crashed && disk.unremoved == old(disk.unremoved) ==>
      backup !in disk.entries
    ensures o != Crashed ==> (stagingExists <==> staging in disk.entries)
    ensures disk.unremoved >= old(disk.unremoved)
  {
    stagingExists := true;
    o := disk.Rename(staging, Destination);
    if o == Crashed { return; }
    if o == Done {
      stagingExists := false;
    } else {
      if backupExists {
        var restored := disk.Rename(backup, Destination);
        if restored == Crashed { o := Crashed; }
      }
      return;
    }

    if backupExists {
      o := disk.Remove(backup);
    }
  }

  /** Lines 77-112, the `try` block: fill and check the stage, then swap it in. */
  method PublishStaging(disk: Disk, staging: Name, backup: Name, plan: Tree, accept: Tree -> bool)
    returns (o: Outcome, stagingExists: bool)
    requires staging.Stage? && backup.Backup? && staging in disk.entries
    requires forall n | n in disk.entries :: n == Destination || n == staging
    modifies disk
    ensures Tidy(disk.entries, staging, backup)
    ensures forall tree :: Publishes(old(disk.entries), tree) ==>
      Publishes(disk.entries, tree) || (accept(plan) && Publishes(disk.entries, Some(plan)))
    ensures o == Done ==> accept(plan) && !stagingExists && disk.entries == map[Destination := plan]
    ensures disk.faults >= old(disk.faults)
    ensures disk.faults == old(disk.faults) ==>
      if accept(plan) then o == Done
      else o == Failed(Other) && stagingExists && SameButStages(old(disk.entries), disk.entries)
    // One fault leaves the old tree or the accepted new one at the destination.
    ensures disk.faults <= old(disk.faults) + 1 && o != Crashed && Destination in old(disk.entries) ==>
      && Destination in disk.entries
      && (disk.entries[Destination] == old(disk.entries)[Destination]
          || (accept(plan) && disk.entries[Destination] == plan))
    ensures disk.faults <= old(disk.faults) + 1 && o != Crashed && disk.unremoved == old(disk.unremoved) ==>
      backup !in disk.entries
    ensures o != Crashed ==> (stagingExists <==> staging in disk.entries)
    ensures disk.unremoved >= old(disk.unremoved)
  {
    stagingExists := true;
    o := disk.Fill(staging, plan);
    if o != Done { return; }
    o := disk.Look();
    if o != Done { return; }
    if !accept(disk.entries[staging]) {
      o := Failed(Other);
      return;
    }

    var backupExists := false;
    o := disk.Rename(Destination, backup);
    if o == Done {
      backupExists := true;
    } else if o != Failed(Missing) {
      return;
    }

    o, stagingExists := SwapIn(disk, staging, backup, backupExists, plan);
  }

  /** Lines 59-129. `plan` is the tree that an undisturbed `prepare` writes, `accept` what
      `validate` lets pass. */
  method ReplaceDirectoryWithRollback(disk: Disk, plan: Tree, accept: Tree -> bool) returns (o: Outcome)
    modifies disk
    // Stopped anywhere, the old tree or the accepted new one is published, and nothing else.
    ensures forall tree :: Publishes(old(disk.entries), tree) ==>
      Publishes(disk.entries, tree) || (accept(plan) && Publishes(disk.entries, Some(plan)))
    // Success means that the new tree stands alone at the destination.
    ensures o == Done ==> accept(plan) && disk.entries == map[Destination := plan]
    // Several backups are never touched.
    ensures !old(AtMostOneBackup(disk.entries)) ==> o != Done && SameButStages(old(disk.entries), disk.entries)
    // Undisturbed, the run succeeds exactly when the new tree is accepted, and cleans up.
    ensures disk.faults >= old(disk.faults)
    ensures disk.faults == old(disk.faults) && old(AtMostOneBackup(disk.entries)) ==>
      o == (if accept(plan) then Done else Failed(Other))
    ensures disk.faults == old(disk.faults) && old(AtMostOneBackup(disk.entries)) && !accept(plan) ==>
      forall n | n in disk.entries :: n == Destination
    // A run with one fault that does not stop the process leaves the destination in its place,
    // with the old tree or the accepted new one; when the fault is no removal, it leaves no
    // other entry behind.
    ensures disk.faults <= old(disk.faults) + 1 && o != Crashed && Destination in old(disk.entries) ==>
      && Destination in disk.entries
      && (disk.entries[Destination] == old(disk.entries)[Destination]
          || (accept(plan) && disk.entries[Destination] == plan))
    ensures disk.faults <= old(disk.faults) + 1 && o != Crashed && disk.unremoved == old(disk.unremoved) ==>
      forall n | n in disk.entries :: n == Destination || n in old(disk.entries)
    // However many faults there are, a stage stays behind only when its removal fails.
    ensures o != Crashed && disk.unremoved == old(disk.unremoved) ==>
      forall n | n in disk.entries && n.Stage? :: n in old(disk.entries)
  {
    o := disk.Look();
    if o != Done { return; }
    o := RecoverInterruptedReplacement(disk);
    if o != Done { return; }

    var stageId: nat, backupId: nat, empty: Tree := *, *, *;
    var staging, backup := Stage(stageId), Backup(backupId);
    ghost var recovered := disk.entries;
    o := disk.MakeDirectory(staging, empty);
    StagesDoNotPublish(recovered, disk.entries);
    if o != Done { return; }

    var stagingExists;
    o, stagingExists := PublishStaging(disk, staging, backup, plan, accept);
    if o == Crashed { return; }
    if stagingExists {
      ghost var published := disk.entries;
      var removed := disk.Remove(staging);
      StagesDoNotPublish(published, disk.entries);
      if removed != Done { o := removed; }
    }
  }

  datatype Job = Job(plan: Tree, accept: Tree -> bool)

  ghost predicate Accepted(jobs: seq<Job>, tree: Option<Tree>) {
    tree.Some? && exists i | 0 <= i < |jobs| :: jobs[i].plan == tree.value && jobs[i].accept(tree.value)
  }

  /** Any number of runs, each disturbed in any way: what is published is the tree of the
      start, or the accepted tree of some run. A second backup never appears. */
  method ManyRuns(disk: Disk, jobs: seq<Job>, ghost start: Option<Tree>) returns (ghost tree: Option<Tree>)
    requires Publishes(disk.entries, start)
    modifies disk
    ensures AtMostOneBackup(disk.entries) && Publishes(disk.entries, tree)
    ensures tree == start || Accepted(jobs, tree)
  {
    tree := start;
    for i := 0 to |jobs|
      invariant Publishes(disk.entries, tree)
      invariant tree == start || Accepted(jobs, tree)
    {
      var o := ReplaceDirectoryWithRollback(disk, jobs[i].plan, jobs[i].accept);
      if !Publishes(disk.entries, tree) {
        tree := Some(jobs[i].plan);
      }
    }
  }
}
