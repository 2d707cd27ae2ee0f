/** Replacing an installed runtime: two renames move the old pair aside, two move the new pair in,
    and an interrupt at any point undoes what was done.  `rename` is atomic; it, or an interrupt,
    may raise before it took effect or after. */
module Cutover {
  import opened Wrappers

  /** The paths involved.  Those but the first two lie in staging directories of this install. */
  datatype Place =
    | Destination | Launcher
    | Checkout | StagedLauncher
    | Backup | LauncherBackup | FailedInstall | FailedLauncher

  /** A directory tree or a launcher. */
  type Content = nat

  type Disk = map<Place, Content>

  function At(disk: Disk, p: Place): Option<Content> {
    if p in disk then Some(disk[p]) else None
  }

  function Renamed(disk: Disk, src: Place, dst: Place): Disk
    requires src in disk
  {
    (disk - {src})[dst := disk[src]]
  }

  /** When a rename raises, if it does. */
  datatype Fault = NoFault | Before | After

  /** How the install ends: the new pair is in place; an error was raised and the old state is back;
      or the rollback failed too. */
  datatype Outcome = Installed | RolledBack | Stranded

  /** Before the cutover: the new pair is staged, nothing is set aside. */
  predicate Staged(disk: Disk) {
    Checkout in disk && StagedLauncher in disk
    && Backup !in disk && LauncherBackup !in disk && FailedInstall !in disk && FailedLauncher !in disk
  }

  /** The old tree is at its place or set aside, and so is the old launcher. */
  predicate OldKept(start: Disk, now: Disk) {
    && (Destination in start ==> At(now, Destination) == At(start, Destination) || At(now, Backup) == At(start, Destination))
    && (Launcher in start ==> At(now, Launcher) == At(start, Launcher) || At(now, LauncherBackup) == At(start, Launcher))
  }

  predicate Restored(start: Disk, now: Disk) {
    At(now, Destination) == At(start, Destination) && At(now, Launcher) == At(start, Launcher)
  }

  class Installer {
    var disk: Disk
    // every state the disk has been in
    ghost var history: seq<Disk>
    // whether the staging directory, with everything set aside, was deleted
    var discarded: bool

    ghost predicate Recorded()
      reads this
    {
      |history| > 0 && history[|history| - 1] == disk
    }

    constructor (disk: Disk)
      ensures this.disk == disk && history == [disk] && !discarded && Recorded()
    {
      this.disk := disk;
      history := [disk];
      discarded := false;
    }

    /** `os.replace`, possibly interrupted. */
    method Replace(src: Place, dst: Place, fault: Fault) returns (raised: bool)
      requires Recorded() && src in disk && dst !in disk && src != dst
      modifies this`disk, this`history
      ensures Recorded() && raised == (fault != NoFault)
      ensures disk == if fault == Before then old(disk) else Renamed(old(disk), src, dst)
      ensures history == old(history) + [disk]
    {
      if fault != Before {
        disk := Renamed(disk, src, dst);
      }
      history := history + [disk];
      raised := fault != NoFault;
    }

    /** The first two renames: set the old pair aside. */
    method SetAside(hadPrevious: bool, hadLauncher: bool, faults: seq<Fault>) returns (raised: bool)
      requires Recorded() && |faults| == 4 && Staged(disk)
      requires hadPrevious == (Destination in disk) && hadLauncher == (Launcher in disk)
      modifies this`disk, this`history
      ensures Recorded() && old(history) <= history
      ensures forall i :: |old(history)| <= i < |history| ==> OldKept(old(disk), history[i])
      ensures raised <==> (hadPrevious && faults[0] != NoFault) || (hadLauncher && faults[1] != NoFault)
      ensures !raised ==> Destination !in disk && Launcher !in disk
      ensures At(disk, Checkout) == At(old(disk), Checkout) && At(disk, StagedLauncher) == At(old(disk), StagedLauncher)
      ensures Underway(old(disk), disk)
    {
      raised := false;
      if hadPrevious {
        raised := Replace(Destination, Backup, faults[0]);
        if raised {
          return;
        }
      }
      if hadLauncher {
        raised := Replace(Launcher, LauncherBackup, faults[1]);
      }
    }

    /** The last two: move the new pair in. */
    method MoveIn(ghost start: Disk, faults: seq<Fault>) returns (raised: bool)
      requires Recorded() && |faults| == 4 && Staged(start) && Underway(start, disk)
      requires Destination !in disk && Launcher !in disk && Checkout in disk && StagedLauncher in disk
      modifies this`disk, this`history
      ensures Recorded() && old(history) <= history
      ensures forall i :: |old(history)| <= i < |history| ==> OldKept(start, history[i])
      ensures raised <==> faults[2] != NoFault || faults[3] != NoFault
      ensures !raised ==> At(disk, Destination) == At(old(disk), Checkout)
                          && At(disk, Launcher) == At(old(disk), StagedLauncher)
      ensures Underway(start, disk)
    {
      raised := Replace(Checkout, Destination, faults[2]);
      if raised {
        return;
      }
      raised := Replace(StagedLauncher, Launcher, faults[3]);
    }

    /** The forward half: set the old pair aside, move the new pair in. */
    method Forward(hadPrevious: bool, hadLauncher: bool, faults: seq<Fault>) returns (raised: bool)
      requires Recorded() && |faults| == 4 && Staged(disk)
      requires hadPrevious == (Destination in disk) && hadLauncher == (Launcher in disk)
      modifies this`disk, this`history
      ensures Recorded() && old(history) <= history
      ensures forall i :: |old(history)| <= i < |history| ==> OldKept(old(disk), history[i])
      ensures raised <==> (hadPrevious && faults[0] != NoFault) || (hadLauncher && faults[1] != NoFault)
                          || faults[2] != NoFault || faults[3] != NoFault
      ensures !raised ==> At(disk, Destination) == At(old(disk), Checkout)
                          && At(disk, Launcher) == At(old(disk), StagedLauncher)
      ensures Underway(old(disk), disk)
    {
      ghost var start := disk;
      raised := SetAside(hadPrevious, hadLauncher, faults);
      if !raised {
        raised := MoveIn(start, faults);
      }
    }

    /** The first half of the rollback: the launcher is put back, or moved away if there was none. */
    method RestoreLauncher(ghost start: Disk, hadLauncher: bool, faults: seq<Fault>) returns (raised: bool)
      requires Recorded() && |faults| == 4 && Staged(start) && Underway(start, disk)
      requires hadLauncher == (Launcher in start)
      modifies this`disk, this`history
      ensures Recorded() && old(history) <= history
      ensures forall i :: |old(history)| <= i < |history| ==> OldKept(start, history[i])
      ensures OldKept(start, disk) && TreeUntouched(old(disk), disk)
      ensures !raised ==> At(disk, Launcher) == At(start, Launcher)
      ensures faults[0] == NoFault && faults[1] == NoFault ==> !raised
    {
      raised := false;
      if LauncherBackup in disk {
        if Launcher in disk {
          raised := Replace(Launcher, FailedLauncher, faults[0]);
          if raised {
            return;
          }
        }
        raised := Replace(LauncherBackup, Launcher, faults[1]);
      } else if !hadLauncher && Launcher in disk {
        raised := Replace(Launcher, FailedLauncher, faults[0]);
      }
    }

    /** The second half: the runtime tree is put back, or moved away if there was none. */
    method RestoreTree(ghost start: Disk, ghost middle: Disk, hadPrevious: bool, faults: seq<Fault>) returns (raised: bool)
      requires Recorded() && |faults| == 4 && Staged(start) && Underway(start, middle) && TreeUntouched(middle, disk)
      requires hadPrevious == (Destination in start) && At(disk, Launcher) == At(start, Launcher)
      modifies this`disk, this`history
      ensures Recorded() && old(history) <= history
      ensures forall i :: |old(history)| <= i < |history| ==> OldKept(start, history[i])
      ensures OldKept(start, disk)
      ensures !raised ==> Restored(start, disk)
      ensures faults[2] == NoFault && faults[3] == NoFault ==> !raised
    {
      raised := false;
      if Backup in disk {
        if Destination in disk {
          raised := Replace(Destination, FailedInstall, faults[2]);
          if raised {
            return;
          }
        }
        raised := Replace(Backup, Destination, faults[3]);
      } else if !hadPrevious && Destination in disk {
        raised := Replace(Destination, FailedInstall, faults[2]);
      }
    }

    /** The rollback: put back what was set aside; move away what was not there before. */
    method Rollback(ghost start: Disk, hadPrevious: bool, hadLauncher: bool, faults: seq<Fault>) returns (raised: bool)
      requires Recorded() && |faults| == 4 && Staged(start) && Underway(start, disk)
      requires hadPrevious == (Destination in start) && hadLauncher == (Launcher in start)
      modifies this`disk, this`history
      ensures Recorded() && old(history) <= history
      ensures forall i :: |old(history)| <= i < |history| ==> OldKept(start, history[i])
      ensures OldKept(start, disk)
      ensures !raised ==> Restored(start, disk)
      ensures (forall i :: 0 <= i < 4 ==> faults[i] == NoFault) ==> !raised
    {
      ghost var middle := disk;
      raised := RestoreLauncher(start, hadLauncher, faults);
      if !raised {
        raised := RestoreTree(start, middle, hadPrevious, faults);
      }
    }

    /** The cutover block of `install_warp`, and the cleanup of the staging directory: it is kept
        exactly when the rollback failed. */
    method Install(forward: seq<Fault>, back: seq<Fault>) returns (outcome: Outcome)
      requires Recorded() && !discarded && |forward| == 4 && |back| == 4 && Staged(disk)
      modifies this
      ensures old(history) <= history && forall i :: |old(history)| <= i < |history| ==> OldKept(old(disk), history[i])
      ensures match outcome
              case Installed => At(disk, Destination) == At(old(disk), Checkout)
                                && At(disk, Launcher) == At(old(disk), StagedLauncher)
              case RolledBack => Restored(old(disk), disk)
              case Stranded => OldKept(old(disk), disk)
      ensures discarded <==> outcome != Stranded
      ensures outcome == Installed <==>
                (Destination in old(disk) ==> forward[0] == NoFault) && (Launcher in old(disk) ==> forward[1] == NoFault)
                && forward[2] == NoFault && forward[3] == NoFault
      ensures (forall i :: 0 <= i < 4 ==> back[i] == NoFault) ==> outcome != Stranded
    {
      ghost var start := disk;
      var hadPrevious, hadLauncher := Destination in disk, Launcher in disk;
      var raised := Forward(hadPrevious, hadLauncher, forward);
      outcome := Installed;
      if raised {
        var again := Rollback(start, hadPrevious, hadLauncher, back);
        outcome := if again then Stranded else RolledBack;
      }
      discarded := outcome != Stranded;
    }
  }

  /** Restoring the launcher does not touch the runtime tree. */
  predicate TreeUntouched(before: Disk, now: Disk) {
    && At(now, Destination) == At(before, Destination)
    && At(now, Backup) == At(before, Backup)
    && At(now, FailedInstall) == At(before, FailedInstall)
  }

  /** Where the forward half can be when it stops. */
  predicate Underway(start: Disk, now: Disk) {
    && FailedInstall !in now && FailedLauncher !in now
    && (Backup in now ==> Destination in start && now[Backup] == start[Destination])
    && (LauncherBackup in now ==> Launcher in start && now[LauncherBackup] == start[Launcher])
    && (Backup !in now ==> (Destination in start ==> At(now, Destination) == At(start, Destination)))
    && (LauncherBackup !in now ==> (Launcher in start ==> At(now, Launcher) == At(start, Launcher)))
  }
}
