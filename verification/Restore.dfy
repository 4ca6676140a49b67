/**
 Installing an imported state directory, rolling it back, and recovering after
 a crash.  Renames and the replacement of the marker are atomic; copying a file
 and removing a tree are not.  The process may die at every durable operation.
 */
module Restore {
  import opened Options

  datatype Phase = Prepared | OldMoved | DataInstalled | ConfigPrepared | ConfigInstalled

  // A directory, and the configuration file inside it.
  datatype Tree = Tree(data: string, config: Option<string>, intact: bool)

  datatype File = File(text: string, intact: bool)

  datatype Transaction = Transaction(phase: Phase, targetExisted: bool, external: bool, configExisted: bool)

  datatype Disk = Disk(
    target: Option<Tree>, previous: Option<Tree>, replacement: Option<Tree>,
    config: Option<File>, oldConfig: Option<File>, staged: Option<File>,
    marker: Option<Transaction>)

  // The two things a restore is about: the data and the external configuration.
  datatype Settled = Settled(data: Option<Tree>, config: Option<File>)

  function Clean(end: Settled): Disk {
    Disk(end.data, None, None, end.config, None, None, None)
  }

  // --- what an uninterrupted recovery makes of a disk ---

  function RestoredConfig(d: Disk, t: Transaction): Option<File> {
    if !t.external then d.config
    else if d.oldConfig.Some? then d.oldConfig
    else if !t.configExisted && (t.phase == ConfigPrepared || t.phase == ConfigInstalled) then None
    else d.config
  }

  // The configuration to install comes from the tree; the present one is saved first.
  predicate CanInstall(d: Disk, t: Transaction, tree: Tree) {
    t.external ==> tree.config.Some? && (t.configExisted ==> d.oldConfig.Some? || d.config.Some?)
  }

  function Installed(d: Disk, t: Transaction, tree: Tree): Settled
    requires CanInstall(d, t, tree)
  {
    Settled(Some(tree), if t.external then Some(File(tree.config.value, true)) else d.config)
  }

  // None when recovery must give up.
  function Outcome(d: Disk): Option<Settled> {
    if d.marker.None? then
      Some(Settled(d.target, d.config))
    else
      var t := d.marker.value;
      if d.target.None? && d.previous.Some? then
        Some(Settled(d.previous, RestoredConfig(d, t)))
      else if d.target.Some? then
        if t.phase == Prepared then Some(Settled(d.target, d.config))
        else if CanInstall(d, t, d.target.value) then Some(Installed(d, t, d.target.value))
        else None
      else if d.replacement.Some? then
        if CanInstall(d, t, d.replacement.value) then Some(Installed(d, t, d.replacement.value)) else None
      else
        None
  }

  // A saved configuration exists only if there was one to save.
  predicate Coherent(d: Disk) {
    d.marker.Some? ==>
      && (d.oldConfig.Some? ==> d.marker.value.external && d.marker.value.configExisted)
      && (d.staged.Some? ==> d.marker.value.external)
  }

  // The transaction in memory is the marked one, or one phase ahead of it.
  predicate Ahead(tx: Transaction, marked: Transaction) {
    && tx == marked.(phase := tx.phase)
    && (tx.phase == marked.phase || (tx.phase == OldMoved && marked.phase == Prepared)
        || (tx.phase == DataInstalled && marked.phase == OldMoved)
        || (tx.phase == ConfigPrepared && marked.phase == DataInstalled)
        || (tx.phase == ConfigInstalled && marked.phase == ConfigPrepared)
        || (tx.phase == ConfigPrepared && marked.phase != Prepared))
  }

  // Recovery keeps this target and configuration, whatever else is removed.
  predicate Lasting(d: Disk) {
    && d.marker.Some? && d.target.Some?
    && (d.marker.value.phase == Prepared || !d.marker.value.external
        || (d.target.value.config.Some? && d.config == Some(File(d.target.value.config.value, true))))
  }

  // The windows in which the marker does not say which configuration belongs to
  // the target that has just been renamed into place.
  predicate Window(before: Disk, after: Disk) {
    && after.marker.Some? && after.marker.value.external && before.target.None? && after.target.Some?
    && if before.previous.Some? then after.marker.value.phase != Prepared && after.target == before.previous
       else after.marker.value.phase == Prepared && after.target == before.replacement
  }

  // --- the import being undone or completed ---

  // Before an import: nothing pending, and a complete replacement.
  predicate CanStart(d: Disk) {
    && d.marker.None? && d.previous.None? && d.oldConfig.None? && d.staged.None?
    && d.replacement.Some? && d.replacement.value.intact && d.replacement.value.config.Some?
  }

  function Before(d: Disk): Settled {
    Settled(d.target, d.config)
  }

  function Imported(d: Disk, external: bool): Settled
    requires CanStart(d)
  {
    Settled(d.replacement, if external then Some(File(d.replacement.value.config.value, true)) else d.config)
  }

  // Without a previous target there is nothing to put back but the new data.
  function RolledBack(start: Disk): Settled {
    Settled(if start.target.Some? then start.target else start.replacement, start.config)
  }

  // The disk during the installation that began on `start`.
  predicate Installing(start: Disk, d: Disk, external: bool) {
    && CanStart(start) && d.marker.Some?
    && var t := d.marker.value;
       && t.external == external && t.targetExisted == start.target.Some? && t.configExisted == (external && start.config.Some?)
       && (|| (d.target == start.target && d.previous.None? && d.replacement == start.replacement && t.phase == Prepared)
           || (d.target.None? && d.previous == start.target && d.replacement == start.replacement && (t.phase == Prepared || t.phase == OldMoved))
           || (d.target == start.replacement && d.previous == start.target && d.replacement.None? && t.phase != Prepared))
       && (d.oldConfig.Some? ==> external && d.oldConfig == start.config) && (d.staged.Some? ==> external)
       && (|| d.config == start.config
           || (external && (t.phase == ConfigPrepared || t.phase == ConfigInstalled)
               && d.config == Some(File(start.replacement.value.config.value, true)) && d.oldConfig == start.config))
  }

  // Nothing is lost: where the target is missing, what it will be made of is complete.
  predicate Safe(d: Disk) {
    d.marker.Some? && d.target.None? ==>
      if d.marker.value.targetExisted then d.previous.Some? && d.previous.value.intact
      else d.previous.None? && d.replacement.Some? && d.replacement.value.intact
  }

  // The old state or the new one is what recovery will make of the disk.
  predicate Sound(start: Disk, d: Disk, external: bool)
    requires CanStart(start)
  {
    Outcome(d) in {Some(Before(start)), Some(Imported(start, external))}
  }

  // A tree whose removal was cut short.
  predicate Torn(d: Disk) {
    d.target.Some? && !d.target.value.intact
  }

  function TornTarget(d: Disk): Disk
    requires d.target.Some?
  {
    d.(target := Some(d.target.value.(intact := false)))
  }

  // A rollback cut short after its last rename: the phase is that of the other tree.
  predicate Mismatch(start: Disk, d: Disk) {
    d.marker.Some? && d.target.Some? && d.marker.value.external && (d.target == start.target <==> d.marker.value.phase != Prepared)
  }

  predicate RollbackCutShort(start: Disk, d: Disk, atomicRemoval: bool) {
    d == Clean(RolledBack(start)) || Mismatch(start, d) || (Torn(d) && !atomicRemoval)
  }

  datatype Status = Done | OsError | Died {
    predicate IsFailure() { this != Done }
    function PropagateFailure(): Status { this }
  }

  // What an import is doing when an operation fails.
  datatype Stage = Marking | Moving | Undoing | Clearing

  datatype Mishap = Failure(stage: Stage) | Death

  // How an import ends, as it reports it: done; failed before anything was moved;
  // failed and undone; failed, and its undoing failed too; done but for its leftovers;
  // or not at all, as the process died.
  datatype Report = Finished | NotBegun | Undone | NotUndone | NotCleared | Interrupted

  class Restorer {
    const external: bool
    const atomicRemoval: bool
    var disk: Disk
    // The transaction in memory, which may be ahead of the marker.
    var tx: Transaction
    // The present stage, and every failure of an operation and death of the process.
    ghost var stage: Stage
    ghost var mishaps: seq<Mishap>

    constructor (external: bool, atomicRemoval: bool, disk: Disk)
      ensures this.external == external && this.atomicRemoval == atomicRemoval && this.disk == disk
    {
      this.external, this.atomicRemoval, this.disk := external, atomicRemoval, disk;
      this.tx := Transaction(Prepared, false, external, false);
      this.stage, this.mishaps := Marking, [];
    }

    // One durable operation: done, failed before or after it had its effect, or cut
    // short by the death of the process, either way or with `torn` left behind.
    method Durably(next: Disk, torn: Option<Disk>) returns (s: Status)
      modifies `disk, `mishaps
      ensures s == Done ==> disk == next
      ensures s == OsError ==> disk == old(disk) || disk == next
      ensures s == Died ==> disk == old(disk) || disk == next || torn == Some(disk)
      ensures mishaps == old(mishaps) + Mishaps(s)
    {
      if {
        case true => disk := next; s := Done;
        case true => s := OsError;
        case true => disk := next; s := OsError;
        case true => s := Died;
        case true => disk := next; s := Died;
        case true => if torn.Some? { disk := torn.value; } s := Died;
      }
      mishaps := mishaps + Mishaps(s);
    }

    ghost function Mishaps(s: Status): seq<Mishap>
      reads `stage
    {
      match s
      case Done => []
      case OsError => [Failure(stage)]
      case Died => [Death]
    }

    // The removal of a tree can also fail with a part of it left behind.
    method Remove(next: Disk, torn: Option<Disk>) returns (s: Status)
      modifies `disk, `mishaps
      ensures s == Done ==> disk == next
      ensures s != Done ==> disk == old(disk) || disk == next || torn == Some(disk)
      ensures mishaps == old(mishaps) + Mishaps(s)
    {
      if * {
        s := Durably(next, torn);
      } else {
        s := OsError;
        if torn.Some? { disk := torn.value; }
        mishaps := mishaps + Mishaps(s);
      }
    }

    // A tree is renamed only from a name it has to one that is free.
    method Rename(from: Option<Tree>, to: Option<Tree>, next: Disk) returns (s: Status)
      requires from.Some? && to.None?
      modifies `disk, `mishaps
      ensures s == Done ==> disk == next
      ensures s != Done ==> disk == old(disk) || disk == next
      ensures mishaps == old(mishaps) + Mishaps(s)
    {
      s := Durably(next, None);
    }

    method Persist(phase: Phase) returns (s: Status)
      modifies `disk, `tx, `mishaps
      ensures mishaps == old(mishaps) + Mishaps(s)
      ensures tx == old(tx).(phase := phase)
      ensures s == Done ==> disk == old(disk).(marker := Some(tx))
      ensures s != Done ==> disk == old(disk) || disk == old(disk).(marker := Some(tx))
    {
      tx := tx.(phase := phase);
      s := Durably(disk.(marker := Some(tx)), None);
    }

    // Save the present configuration unless it is saved, and stage the new one.
    method StageConfig() returns (s: Status)
      requires disk.target.Some? && disk.marker == Some(tx) && tx.external && Coherent(disk)
      modifies `disk, `mishaps
      // It fails without an operation failing exactly if there is nothing to copy.
      ensures if CanInstall(old(disk), tx, old(disk).target.value) then mishaps == old(mishaps) + Mishaps(s)
              else s != Done && ((s == OsError && mishaps == old(mishaps)) || mishaps == old(mishaps) + Mishaps(s))
      ensures disk == old(disk).(oldConfig := disk.oldConfig, staged := disk.staged)
      ensures disk.oldConfig == old(disk).oldConfig || (tx.configExisted && old(disk).oldConfig.None? && disk.config.Some? && disk.oldConfig.Some?
                                                        && (s != Died ==> disk.oldConfig == disk.config))
      ensures s == Done ==> disk.target.value.config.Some? && disk.staged == Some(File(disk.target.value.config.value, true))
                            && (tx.configExisted ==> disk.oldConfig.Some?)
    {
      if tx.configExisted && disk.oldConfig.None? {
        if disk.config.None? { return OsError; }
        :- Durably(disk.(oldConfig := disk.config), Some(disk.(oldConfig := Some(File(disk.config.value.text, false)))));
      }
      :- Durably(disk.(staged := None), None);
      // A file is copied only to a name that is free.
      if disk.target.value.config.None? || disk.staged.Some? { return OsError; }
      var text := disk.target.value.config.value;
      :- Durably(disk.(staged := Some(File(text, true))), Some(disk.(staged := Some(File(text, false)))));
      return Done;
    }

    method InstallExternalConfig() returns (s: Status)
      requires disk.target.Some? && disk.marker == Some(tx) && tx.external && tx.phase != Prepared && Coherent(disk)
      modifies `disk, `tx, `mishaps
      ensures if CanInstall(old(disk), old(tx), old(disk).target.value) then mishaps == old(mishaps) + Mishaps(s)
              else s != Done && ((s == OsError && mishaps == old(mishaps)) || mishaps == old(mishaps) + Mishaps(s))
      ensures disk.target == old(disk).target && disk.previous == old(disk).previous && disk.replacement == old(disk).replacement
      ensures s == Done ==> CanInstall(old(disk), old(tx), disk.target.value)
                            && disk.marker == Some(tx) && tx == old(tx).(phase := ConfigInstalled)
                            && disk.config == Some(File(disk.target.value.config.value, true))
      ensures Coherent(disk) && Outcome(disk) == Outcome(old(disk)) && tx == old(tx).(phase := tx.phase)
      ensures disk.marker.Some? && disk.marker.value.phase != Prepared && Ahead(tx, disk.marker.value)
      ensures s == OsError ==> forall start :: Installing(start, old(disk), true) ==> Installing(start, disk, true)
    {
      s := StageConfig();
      if s != Done { return; }
      :- Persist(ConfigPrepared);
      :- Durably(disk.(config := disk.staged, staged := None), None);
      :- Persist(ConfigInstalled);
      return Done;
    }

    method RestoreExternalConfig() returns (s: Status)
      requires disk.marker.Some? && disk.marker.value.(phase := tx.phase) == tx && Coherent(disk)
      modifies `disk, `mishaps
      ensures mishaps == old(mishaps) + Mishaps(s)
      ensures s == Done ==> disk == old(disk).(config := RestoredConfig(old(disk), tx),
                                              oldConfig := if tx.external then None else old(disk).oldConfig,
                                              staged := if tx.external then None else old(disk).staged)
      ensures disk.target == old(disk).target && disk.previous == old(disk).previous && disk.replacement == old(disk).replacement
      ensures disk.marker == old(disk).marker && Coherent(disk)
      ensures RestoredConfig(disk, tx) == RestoredConfig(old(disk), tx)
      ensures disk.config == old(disk).config || disk.config == RestoredConfig(old(disk), tx)
      ensures tx.configExisted && (old(disk).oldConfig.Some? || old(disk).config.Some?) ==>
                disk.oldConfig.Some? || disk.config.Some?
    {
      if !tx.external { return Done; }
      if disk.oldConfig.Some? {
        :- Durably(disk.(config := disk.oldConfig, oldConfig := None), None);
      } else if !tx.configExisted && (tx.phase == ConfigPrepared || tx.phase == ConfigInstalled) && disk.config.Some? {
        :- Durably(disk.(config := None), None);
      }
      s := Durably(disk.(staged := None), None);
    }

    method ClearTrees() returns (s: Status)
      modifies `disk, `mishaps
      ensures mishaps == old(mishaps) + Mishaps(s)
      ensures s == Done ==> disk == old(disk).(previous := None, replacement := None)
      ensures disk == old(disk).(previous := disk.previous, replacement := disk.replacement)
    {
      if disk.previous.Some? {
        :- Remove(disk.(previous := None), Some(disk.(previous := Some(disk.previous.value.(intact := false)))));
      }
      if disk.replacement.Some? {
        :- Remove(disk.(replacement := None), Some(disk.(replacement := Some(disk.replacement.value.(intact := false)))));
      }
      return Done;
    }

    // Forget the transaction: what is left of it is removed, the marker last.
    method Finalize() returns (s: Status)
      requires disk.target.Some? && disk.marker.Some? && Coherent(disk)
      modifies `disk, `mishaps
      ensures mishaps == old(mishaps) + Mishaps(s)
      ensures s == Done ==> disk == Clean(Settled(old(disk).target, old(disk).config))
      ensures disk.target == old(disk).target && disk.config == old(disk).config
      ensures disk.marker == old(disk).marker || disk == Clean(Settled(old(disk).target, old(disk).config))
      ensures Coherent(disk)
    {
      s := ClearTrees();
      if s != Done { return; }
      if disk.marker.value.external {
        :- Durably(disk.(staged := None), None);
        :- Durably(disk.(oldConfig := None), None);
      }
      s := Durably(disk.(marker := None), None);
    }

    /** Recover from an interrupted restore.  Run to its end it makes of the disk
        what `Outcome` says.  Cut short anywhere, it leaves a disk from which the
        next recovery makes the same - except in the two windows. */
    method Recover() returns (s: Status)
      requires Coherent(disk) && Safe(disk)
      modifies this
      ensures Safe(disk) && (Torn(disk) ==> Torn(old(disk)))
      ensures s == Done ==> Outcome(old(disk)).Some?
                            && disk == if old(disk).marker.Some? then Clean(Outcome(old(disk)).value) else old(disk)
      // It comes to its end unless an operation fails, the process dies, or nothing is
      // left to recover.
      ensures mishaps == old(mishaps) + Mishaps(s) || (s == OsError && mishaps == old(mishaps))
      ensures mishaps == old(mishaps) ==> (s == Done <==> Outcome(old(disk)).Some?)
      // What it puts in the place of a missing target is complete.
      ensures s == Done && old(disk).marker.Some? && old(disk).target.None? ==> disk.target.Some? && disk.target.value.intact
      ensures Coherent(disk)
      ensures disk.marker.Some? ==> old(disk).marker.Some? && disk.marker.value.external == old(disk).marker.value.external
      ensures disk.marker.None? ==> disk == old(disk) || (Outcome(old(disk)).Some? && disk == Clean(Outcome(old(disk)).value))
      ensures Outcome(disk) == Outcome(old(disk)) || Window(old(disk), disk)
    {
      if disk.marker.None? { return Done; }
      tx := disk.marker.value;
      s := Settle();
      if s != Done { return; }
      s := Finalize();
    }

    // Give the target and the configuration that recovery is to end with.
    method Settle() returns (s: Status)
      requires Coherent(disk) && Safe(disk) && disk.marker == Some(tx)
      modifies this
      ensures Coherent(disk) && Safe(disk) && (Torn(disk) ==> Torn(old(disk)))
      ensures s == Done ==> disk.target.Some? && Outcome(old(disk)) == Some(Settled(disk.target, disk.config))
                            && (Window(old(disk), disk) || Lasting(disk))
      ensures s == Done && old(disk).target.None? ==> disk.target.value.intact
      ensures mishaps == old(mishaps) + Mishaps(s) || (s == OsError && mishaps == old(mishaps))
      ensures mishaps == old(mishaps) ==> (s == Done <==> Outcome(old(disk)).Some?)
      ensures disk.marker.Some? && disk.marker.value.external == old(tx).external
      ensures Outcome(disk) == Outcome(old(disk)) || Window(old(disk), disk)
    {
      if disk.target.None? { MissingTargetIsSafe(disk); }
      if disk.target.None? && disk.previous.Some? {
        :- RestoreExternalConfig();
        :- Rename(disk.previous, disk.target, disk.(target := disk.previous, previous := None));
      } else if disk.target.Some? {
        if tx.phase != Prepared && tx.external {
          :- InstallExternalConfig();
        }
      } else if disk.replacement.Some? {
        :- Rename(disk.replacement, disk.target, disk.(target := disk.replacement, replacement := None));
        :- Persist(DataInstalled);
        if tx.external {
          :- InstallExternalConfig();
        }
      } else {
        return OsError;
      }
      return Done;
    }

    /** Put back what was there.  Run to its end it does so if there was a target
        before; without one the new data stays, under the old configuration. */
    method Rollback(ghost start: Disk) returns (s: Status)
      requires Installing(start, disk, external) && Ahead(tx, disk.marker.value)
      requires start.target.Some? ==> start.target.value.intact
      modifies `disk, `mishaps
      ensures mishaps == old(mishaps) + Mishaps(s)
      ensures s == Done ==> disk == Clean(RolledBack(start))
      ensures Coherent(disk) && Safe(disk) && (Torn(disk) ==> !atomicRemoval)
      ensures if disk.marker.Some? then disk.marker.value.external == external else disk == Clean(RolledBack(start))
      ensures s != Done ==> Sound(start, disk, external) || RollbackCutShort(start, disk, atomicRemoval)
    {
      s := RestoreExternalConfig();
      if s != Done { return; }
      s := PutBack(start);
      if s != Done { return; }
      s := Finalize();
    }

    // Put back the old tree in place of what is there; without one, finish the new.
    method PutBack(ghost start: Disk) returns (s: Status)
      requires Installing(start, disk, external) && disk.config == start.config && disk.oldConfig.None?
      requires start.target.Some? ==> start.target.value.intact
      modifies `disk, `mishaps
      ensures mishaps == old(mishaps) + Mishaps(s)
      ensures disk == old(disk).(target := disk.target, previous := disk.previous, replacement := disk.replacement)
      ensures Safe(disk) && (Torn(disk) ==> !atomicRemoval)
      ensures s == Done ==> disk.target == RolledBack(start).data
      ensures Sound(start, disk, external) || Mismatch(start, disk) || Torn(disk)
    {
      if disk.previous.Some? {
        if disk.target.Some? {
          :- Remove(disk.(target := None), if atomicRemoval then None else Some(TornTarget(disk)));
        }
        :- Rename(disk.previous, disk.target, disk.(target := disk.previous, previous := None));
      } else if disk.target.None? && disk.replacement.Some? {
        :- Rename(disk.replacement, disk.target, disk.(target := disk.replacement, replacement := None));
      }
      return Done;
    }

    // Move the trees and install the configuration, marking each phase.
    method Install(ghost start: Disk) returns (s: Status)
      requires CanStart(start) && disk == start.(marker := Some(tx))
      requires tx == Transaction(Prepared, start.target.Some?, external, external && start.config.Some?)
      requires start.target.Some? ==> start.target.value.intact
      modifies `disk, `tx, `mishaps
      ensures mishaps == old(mishaps) + Mishaps(s)
      ensures Safe(disk) && !Torn(disk)
      ensures s == Done ==> disk.target == start.replacement && disk.config == Imported(start, external).config
      ensures s == Done ==> disk.marker == Some(tx) && tx.phase == (if external then ConfigInstalled else DataInstalled)
                            && tx.external == external && Coherent(disk)
      ensures s == OsError ==> Installing(start, disk, external) && Ahead(tx, disk.marker.value)
      ensures disk.marker.Some? && disk.marker.value.external == external
      ensures s == Died ==> Coherent(disk) && Sound(start, disk, external)
    {
      if tx.targetExisted {
        :- Rename(disk.target, disk.previous, disk.(target := None, previous := disk.target));
      }
      :- Persist(OldMoved);
      :- Rename(disk.replacement, disk.target, disk.(target := disk.replacement, replacement := None));
      :- Persist(DataInstalled);
      if external {
        :- InstallExternalConfig();
      }
      return Done;
    }

    /** Install an imported tree.  Whatever happens, the old state or the new one
        is what recovery will make of the disk, unless a rollback was cut short
        at one of the points named here.  A failed installation is undone: one
        failure while moving leaves what a rollback leaves, with nothing pending,
        and it takes a second one for the undoing to be incomplete. */
    method ReplaceState() returns (s: Status, report: Report)
      requires CanStart(disk) && (disk.target.Some? ==> disk.target.value.intact)
      modifies this
      ensures s == Done ==> disk == Clean(Imported(old(disk), external))
      ensures Coherent(disk) && Safe(disk) && (Torn(disk) ==> !atomicRemoval)
      ensures s != Done ==> Sound(old(disk), disk, external) || RollbackCutShort(old(disk), disk, atomicRemoval)
      ensures disk.marker.Some? ==> disk.marker.value.external == external
      ensures disk.marker.None? ==>
                disk in {old(disk), Clean(Before(old(disk))), Clean(Imported(old(disk), external)), Clean(RolledBack(old(disk)))}
      ensures mishaps == old(mishaps) + [Failure(Moving)] ==> disk == Clean(RolledBack(old(disk)))
      ensures match report
              case Finished => s == Done && mishaps == old(mishaps)
              case NotBegun => s == OsError && mishaps == old(mishaps) + [Failure(Marking)] && disk == old(disk).(marker := disk.marker)
              case Undone => s == OsError && mishaps == old(mishaps) + [Failure(Moving)] && disk == Clean(RolledBack(old(disk)))
              case NotUndone => s == OsError && mishaps == old(mishaps) + [Failure(Moving), Failure(Undoing)]
              case NotCleared => s == OsError && mishaps == old(mishaps) + [Failure(Clearing)] && disk.target == old(disk).replacement
                                 && disk.config == Imported(old(disk), external).config
              case Interrupted => s == Died && (mishaps == old(mishaps) + [Death] || mishaps == old(mishaps) + [Failure(Moving), Death])
    {
      ghost var start := disk;
      stage := Marking;
      tx := Transaction(Prepared, disk.target.Some?, external, external && disk.config.Some?);
      s := Persist(Prepared);
      if s != Done {
        assert mishaps[|old(mishaps)|] != Failure(Moving);
        return s, if s == Died then Interrupted else NotBegun;
      }
      assert mishaps == old(mishaps);
      stage := Moving;
      s := Install(start);
      if s == OsError {
        stage := Undoing;
        var undone := Rollback(start);
        if undone != Done { assert mishaps == old(mishaps) + [Failure(Moving)] + Mishaps(undone); }
        if undone == Died { return Died, Interrupted; }
        return OsError, if undone == Done then Undone else NotUndone;
      }
      if s == Died {
        assert mishaps[|old(mishaps)|] == Death;
        return s, Interrupted;
      }
      assert mishaps == old(mishaps);
      stage := Clearing;
      s := Finalize();
      if s != Done { assert mishaps[|old(mishaps)|] != Failure(Moving); }
      return s, if s == Done then Finished else if s == Died then Interrupted else NotCleared;
    }

    /** A restore that is cut short any number of times, and recovered each time
        until a recovery comes to its end; `trace` has the disk after each attempt.
        Only a rollback cut short, or a recovery cut short in a window, can keep
        the disk from ending as it was or as imported; and no attempt ever leaves
        a missing target without a complete tree to put there, or - a rollback's
        removal aside - a part of a tree as the target. */
    method RestoreThroughCrashes(attempts: nat) returns (s: Status, ghost unlucky: bool, ghost trace: seq<Disk>)
      requires CanStart(disk) && (disk.target.Some? ==> disk.target.value.intact)
      modifies this
      ensures 0 < |trace| <= attempts + 1 && trace[|trace| - 1] == disk && (forall d :: d in trace ==> Safe(d))
      ensures (exists d :: d in trace && Torn(d)) ==> Torn(trace[0]) && !atomicRemoval
      // Each attempt was one more recovery, which only a mishap keeps from its end.
      ensures s != Done ==> |trace| == attempts + 1 && (!unlucky ==> |mishaps| >= |old(mishaps)| + |trace|)
      ensures unlucky ==> RollbackCutShort(old(disk), trace[0], atomicRemoval) || exists i :: WindowAt(trace, i)
      ensures !unlucky ==> Sound(old(disk), disk, external)
      ensures !unlucky && s == Done ==> disk in {old(disk), Clean(Before(old(disk))), Clean(Imported(old(disk), external))}
      // Without an external configuration, and if trees are removed atomically
      // by a rollback, nothing is ever unlucky.
      ensures !external && atomicRemoval ==> !unlucky
    {
      ghost var start := disk;
      var report;
      s, report := ReplaceState();
      unlucky, trace := !Sound(start, disk, external), [disk];
      var n := 0;
      while s != Done && n < attempts
        invariant Coherent(disk) && Safe(disk)
        invariant n <= attempts && |trace| == n + 1 && trace[n] == disk && forall d :: d in trace ==> Safe(d)
        invariant s != Done && !unlucky ==> |mishaps| >= |old(mishaps)| + |trace|
        invariant Torn(trace[0]) ==> !atomicRemoval
        invariant !Torn(trace[0]) ==> forall d :: d in trace ==> !Torn(d)
        invariant unlucky ==> RollbackCutShort(start, trace[0], atomicRemoval) || exists i :: WindowAt(trace, i)
        invariant !unlucky ==> Sound(start, disk, external)
        invariant s == Done ==> disk.marker.None?
        invariant disk.marker.Some? ==> disk.marker.value.external == external
        invariant !unlucky && disk.marker.None? ==> disk in {start, Clean(Before(start)), Clean(Imported(start, external))}
        invariant !external && atomicRemoval ==> !unlucky
      {
        ghost var before, earlier := disk, trace;
        s := Recover();
        trace := trace + [disk];
        assert forall i :: WindowAt(earlier, i) ==> WindowAt(trace, i);
        if Window(before, disk) {
          assert WindowAt(trace, n);
        }
        unlucky := unlucky || Window(before, disk);
        n := n + 1;
      }
    }
  }

  // --- what is at stake ---

  /** Where nothing is lost, what a recovery puts in the place of a missing target
      is complete, and with a target before it always finds one to put there. */
  lemma MissingTargetIsSafe(d: Disk)
    requires Safe(d) && d.marker.Some? && d.target.None?
    ensures d.marker.value.targetExisted ==> Outcome(d).Some?
    ensures Outcome(d).Some? ==> Outcome(d).value.data.Some? && Outcome(d).value.data.value.intact
  {
  }

  predicate WindowAt(trace: seq<Disk>, i: int) {
    0 <= i < |trace| - 1 && Window(trace[i], trace[i + 1])
  }

  /** The first window, exactly: once the previous tree is renamed back under a
      later phase, recovery takes the configuration out of that tree - harmless
      only if it is the one already installed. */
  lemma BringBackWindow(d: Disk)
    requires d.marker.Some? && d.marker.value.external && d.marker.value.phase != Prepared
    requires d.target.None? && d.previous.Some? && d.oldConfig.None? && RestoredConfig(d, d.marker.value) == d.config
    ensures var after := d.(target := d.previous, previous := None);
            && Window(d, after)
            && (Outcome(after) == Outcome(d) <==>
                  d.previous.value.config.Some? && d.config == Some(File(d.previous.value.config.value, true)))
  {
  }

  /** The second window, exactly: once the replacement is renamed into place under
      the first phase, recovery leaves the configuration as it is. */
  lemma InstallWindow(d: Disk)
    requires d.marker.Some? && d.marker.value.external && d.marker.value.phase == Prepared
    requires d.target.None? && d.previous.None? && d.replacement.Some? && CanInstall(d, d.marker.value, d.replacement.value)
    ensures var after := d.(target := d.replacement, replacement := None);
            && Window(d, after)
            && (Outcome(after) == Outcome(d) <==> d.config == Some(File(d.replacement.value.config.value, true)))
  {
  }

  /** The first exception of a rollback, exactly.  Without a target to put back,
      one that comes to its end leaves the new data under the old configuration:
      the old or the new state only if the two configurations are one. */
  lemma RolledBackExactly(start: Disk, external: bool)
    requires CanStart(start)
    ensures Sound(start, Clean(RolledBack(start)), external) <==>
              start.target.Some? || !external || start.config == Some(File(start.replacement.value.config.value, true))
  {
  }

  /** The second exception, exactly: the last rename of a rollback that has put
      the external configuration back.  The tree is then in place under the phase
      the marker had before, which is harmless only if that phase suits the tree,
      or if the tree holds the configuration that is there. */
  lemma LastRenameExactly(start: Disk, d: Disk)
    requires Installing(start, d, true) && d.target.None? && d.config == start.config && d.oldConfig.None?
    requires start.target.Some? ==> start.target.value.intact
    ensures var tree := if d.previous.Some? then d.previous else d.replacement;
            var after := if d.previous.Some? then d.(target := d.previous, previous := None)
                         else d.(target := d.replacement, replacement := None);
            && (Mismatch(start, after) <==> (d.previous.Some? <==> d.marker.value.phase != Prepared))
            && (Sound(start, after, true) <==>
                  || !Mismatch(start, after)
                  || (tree.value.config.Some? && d.config == Some(File(tree.value.config.value, true)))
                  || d.previous == d.replacement)
  {
  }

  /** The third exception, exactly: a rollback removes the target it replaces.
      Before the removal, after it and wherever it may be cut short, the old or
      the new state comes back - unless the removal can leave a part of the tree. */
  lemma RemovalExactly(start: Disk, d: Disk, external: bool, atomicRemoval: bool)
    requires Installing(start, d, external) && d.target.Some? && d.previous.Some? && d.config == start.config && d.oldConfig.None?
    requires start.target.value.intact
    ensures Sound(start, d, external) && Sound(start, d.(target := None), external)
    ensures Torn(TornTarget(d)) && !Sound(start, TornTarget(d), external)
    ensures (forall left :: left in {d, d.(target := None)} + (if atomicRemoval then {} else {TornTarget(d)}) ==> Sound(start, left, external))
            <==> atomicRemoval
  {
    assert TornTarget(d) in {d, d.(target := None)} + {TornTarget(d)};
  }

  const OLD_TREE := Tree("old", None, true)
  const NEW_TREE := Tree("new", Some("new"), true)
  const MINE := Some(File("mine", true))

  // A disk before an import under an external configuration, and that disk as
  // the import proceeds: marked, with the old tree moved aside, in the next phase.
  function StartDisk(target: Option<Tree>): Disk {
    Disk(target, None, Some(NEW_TREE), MINE, None, None, None)
  }

  function Marked(start: Disk, phase: Phase): Disk {
    start.(marker := Some(Transaction(phase, start.target.Some?, true, true)))
  }

  function MovedAside(start: Disk, phase: Phase): Disk {
    Marked(start, phase).(target := None, previous := start.target)
  }

  function InPlace(start: Disk, phase: Phase): Disk {
    MovedAside(start, phase).(target := start.replacement, replacement := None)
  }

  // The import moved the old tree aside and marked it, and died; recovery renamed
  // it back, and died: the next recovery can only give up.
  lemma FirstWindowHappens()
    ensures var start := StartDisk(Some(OLD_TREE));
            var d := MovedAside(start, OldMoved);
            var after := d.(target := d.previous, previous := None);
            && CanStart(start)
            && Installing(start, Marked(start, Prepared), true) && Installing(start, MovedAside(start, Prepared), true)
            && Installing(start, d, true)
            && Outcome(d) == Some(Before(start))
            && Outcome(after) == None
  {
  }

  // The import died before its first rename; recovery renamed the replacement
  // into place, and died: the new data ends up under the old configuration.
  lemma SecondWindowHappens()
    ensures var start := StartDisk(None);
            var d := Marked(start, Prepared);
            var after := d.(target := d.replacement, replacement := None);
            && CanStart(start) && Installing(start, d, true)
            && Outcome(d) == Some(Imported(start, true))
            && Outcome(after) == Some(Settled(Some(NEW_TREE), MINE))
  {
  }

  // Nothing was there before; the import fails to mark its second phase and rolls
  // back: the new data stays, under the old configuration.
  lemma FirstExceptionHappens()
    ensures var start := StartDisk(None);
            && CanStart(start) && Installing(start, Marked(start, Prepared), true)
            && Clean(RolledBack(start)) == Clean(Settled(Some(NEW_TREE), MINE))
            && !Sound(start, Clean(RolledBack(start)), true)
  {
  }

  // The import fails to rename the replacement into place, rolls back, and dies
  // once the old tree is back: recovery can only give up.
  lemma SecondExceptionHappens()
    ensures var start := StartDisk(Some(OLD_TREE));
            var d := MovedAside(start, OldMoved);
            var after := d.(target := d.previous, previous := None);
            && CanStart(start) && Installing(start, d, true) && RestoredConfig(d, d.marker.value) == d.config == start.config
            && Mismatch(start, after) && Outcome(after) == None
  {
  }

  // The import fails to install the configuration, rolls back, and dies while it
  // removes the new tree: recovery keeps what is left of it.
  lemma ThirdExceptionHappens()
    ensures var start := StartDisk(Some(OLD_TREE));
            var d := InPlace(start, DataInstalled);
            && CanStart(start) && Installing(start, MovedAside(start, OldMoved), true)
            && Installing(start, InPlace(start, OldMoved), true) && Installing(start, d, true)
            && Torn(TornTarget(d))
            && Outcome(TornTarget(d)) == Some(Settled(Some(NEW_TREE.(intact := false)), Some(File("new", true))))
  {
  }
}
