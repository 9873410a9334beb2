/** Publishing a set of output files: rename each temporary onto its target, or undo everything. */
module CommitFiles {
  import opened Prelude

  type Path = string

  /** `Special` stands for pipes, sockets and devices, which a rename replaces like a regular file. */
  datatype File = Regular(content: Bytes) | Special | Folder

  type Disk = map<Path, File>

  datatype Output = Output(temporary: Path, target: Path)

  /** Where the environment makes an operation fail, or the caller's hook throws. */
  datatype Trouble = Nowhere | InBackup(i: nat) | InCommit(i: nat) | InHook(i: nat)

  function Look(d: Disk, p: Path): Option<File> { if p in d then Some(d[p]) else None }

  ghost predicate Occurs(files: seq<Output>, n: nat, p: Path)
    requires n <= |files|
  {
    exists k :: 0 <= k < n && (files[k].temporary == p || files[k].target == p)
  }

  /** All paths of the call are different, and backup names are new and different. */
  ghost predicate Distinct(d: Disk, files: seq<Output>, backup: Path -> Path) {
    && (forall i, j :: 0 <= i < |files| && 0 <= j < |files| ==> files[i].temporary != files[j].target)
    && (forall i, j :: 0 <= i < j < |files| ==> files[i].temporary != files[j].temporary && files[i].target != files[j].target)
    && (forall i :: 0 <= i < |files| ==> backup(files[i].target) !in d && !Occurs(files, |files|, backup(files[i].target)))
    && (forall i, j :: 0 <= i < j < |files| ==> backup(files[i].target) != backup(files[j].target))
  }

  // ---- The promise -------------------------------------------------------------------------------------------

  /** Every target holds what its temporary held; the temporaries are gone; nothing else changed. */
  ghost predicate AllCommitted(d: Disk, now: Disk, files: seq<Output>) {
    && (forall i :: 0 <= i < |files| ==> Look(now, files[i].target) == Look(d, files[i].temporary))
    && (forall i :: 0 <= i < |files| ==> files[i].temporary !in now)
    && (forall p :: !Occurs(files, |files|, p) ==> Look(now, p) == Look(d, p))
  }

  /** The temporaries are gone and everything else is as it was, except that the targets in `lost`
      are missing. */
  ghost predicate AllUndone(d: Disk, now: Disk, files: seq<Output>, lost: set<Path>) {
    && (forall i :: 0 <= i < |files| ==> files[i].temporary !in now)
    && (forall p :: (forall i :: 0 <= i < |files| ==> files[i].temporary != p) ==>
          Look(now, p) == if p in lost then None else Look(d, p))
  }

  /** What an unforced failure after `n` renames destroys: targets that were there before. */
  ghost function Overwritten(d: Disk, files: seq<Output>, force: bool, n: nat): set<Path>
    requires n <= |files|
  {
    if force then {} else set k | 0 <= k < n && files[k].target in d :: files[k].target
  }

  // ---- How far a call gets ---------------------------------------------------------------------------------------

  /** A rename puts files over files and folders over folders only. */
  predicate Replaces(from: File, to: File) { from.Folder? <==> to.Folder? }

  /** The disk itself refuses the `i`-th commit: there is nothing to rename, or an unforced rename
      meets something it cannot replace. */
  ghost predicate Refuses(d: Disk, files: seq<Output>, force: bool, i: nat)
    requires i < |files|
  {
    || files[i].temporary !in d
    || (!force && files[i].target in d && !Replaces(d[files[i].temporary], d[files[i].target]))
  }

  ghost predicate BackupFails(d: Disk, files: seq<Output>, trouble: Trouble) {
    exists i :: 0 <= i < |files| && files[i].target in d && (!d[files[i].target].Regular? || trouble == InBackup(i))
  }

  /** The number of renames done by a commit loop that continues at `i`. */
  ghost function Renames(d: Disk, files: seq<Output>, force: bool, trouble: Trouble, i: nat): (n: nat)
    requires i <= |files|
    ensures i <= n <= |files|
    decreases |files| - i
  {
    if i == |files| || Refuses(d, files, force, i) || trouble == InCommit(i) then i
    else if trouble == InHook(i) then i + 1
    else Renames(d, files, force, trouble, i + 1)
  }

  ghost function Commits(d: Disk, files: seq<Output>, force: bool, trouble: Trouble): (n: nat)
    ensures n <= |files|
  {
    if force && BackupFails(d, files, trouble) then 0 else Renames(d, files, force, trouble, 0)
  }

  /** When the call succeeds. */
  ghost predicate Clean(d: Disk, files: seq<Output>, force: bool, trouble: Trouble) {
    && !(force && BackupFails(d, files, trouble))
    && forall i :: 0 <= i < |files| ==> !Refuses(d, files, force, i) && trouble != InCommit(i) && trouble != InHook(i)
  }

  /** The files that a call destroys. */
  ghost function Lost(d: Disk, files: seq<Output>, force: bool, trouble: Trouble): set<Path> {
    if Clean(d, files, force, trouble) then {} else Overwritten(d, files, force, Commits(d, files, force, trouble))
  }

  // ---- The disk, slot by slot ------------------------------------------------------------------------------------

  type Slots = seq<Option<File>>

  /** The disk described by what the targets, the backups and the temporaries hold. */
  datatype Slate = Slate(targets: Slots, backups: Slots, temporaries: Slots)

  ghost predicate Sized(files: seq<Output>, v: Slate) {
    |v.targets| == |files| && |v.backups| == |files| && |v.temporaries| == |files|
  }

  ghost predicate Elsewhere(files: seq<Output>, backup: Path -> Path, p: Path) {
    forall k :: 0 <= k < |files| ==> files[k].temporary != p && files[k].target != p && backup(files[k].target) != p
  }

  ghost predicate Shows(d: Disk, now: Disk, files: seq<Output>, backup: Path -> Path, v: Slate) {
    && Sized(files, v)
    && (forall k :: 0 <= k < |files| ==> Look(now, files[k].target) == v.targets[k])
    && (forall k :: 0 <= k < |files| ==> Look(now, backup(files[k].target)) == v.backups[k])
    && (forall k :: 0 <= k < |files| ==> Look(now, files[k].temporary) == v.temporaries[k])
    && (forall p :: Elsewhere(files, backup, p) ==> Look(now, p) == Look(d, p))
  }

  ghost function Slate0(d: Disk, files: seq<Output>): (v: Slate)
    ensures Sized(files, v)
    ensures forall k :: 0 <= k < |files| ==>
      v.targets[k] == Look(d, files[k].target) && v.backups[k] == None && v.temporaries[k] == Look(d, files[k].temporary)
  {
    Slate(seq(|files|, k requires 0 <= k < |files| => Look(d, files[k].target)), seq(|files|, _ => None),
          seq(|files|, k requires 0 <= k < |files| => Look(d, files[k].temporary)))
  }

  lemma StartShows(d: Disk, files: seq<Output>, backup: Path -> Path)
    requires Distinct(d, files, backup)
    ensures Shows(d, d, files, backup, Slate0(d, files))
  {
  }

  /** Paths of one call never coincide. */
  lemma PathsDiffer(d: Disk, files: seq<Output>, backup: Path -> Path, i: nat, j: nat)
    requires Distinct(d, files, backup) && i < |files| && j < |files|
    ensures files[i].temporary != files[j].target
    ensures backup(files[i].target) != files[j].target && backup(files[i].target) != files[j].temporary
    ensures i != j ==> files[i].target != files[j].target && files[i].temporary != files[j].temporary
    ensures i != j ==> backup(files[i].target) != backup(files[j].target)
  {
    assert !Occurs(files, |files|, backup(files[i].target));
    assert i < j || j < i || i == j;
  }

  /** Writing or clearing one target, backup or temporary changes that slot only. */
  lemma SetTarget(d: Disk, now: Disk, now': Disk, files: seq<Output>, backup: Path -> Path, v: Slate, k: nat, x: Option<File>)
    requires Distinct(d, files, backup) && Shows(d, now, files, backup, v) && k < |files|
    requires forall p :: Look(now', p) == if p == files[k].target then x else Look(now, p)
    ensures Shows(d, now', files, backup, v.(targets := v.targets[k := x]))
  {
    forall i | 0 <= i < |files| ensures Look(now', files[i].target) == v.targets[k := x][i] { PathsDiffer(d, files, backup, i, k); }
    forall i | 0 <= i < |files| ensures Look(now', backup(files[i].target)) == v.backups[i] { PathsDiffer(d, files, backup, i, k); }
    forall i | 0 <= i < |files| ensures Look(now', files[i].temporary) == v.temporaries[i] { PathsDiffer(d, files, backup, i, k); }
  }

  lemma SetBackup(d: Disk, now: Disk, now': Disk, files: seq<Output>, backup: Path -> Path, v: Slate, k: nat, x: Option<File>)
    requires Distinct(d, files, backup) && Shows(d, now, files, backup, v) && k < |files|
    requires forall p :: Look(now', p) == if p == backup(files[k].target) then x else Look(now, p)
    ensures Shows(d, now', files, backup, v.(backups := v.backups[k := x]))
  {
    forall i | 0 <= i < |files| ensures Look(now', files[i].target) == v.targets[i] { PathsDiffer(d, files, backup, k, i); }
    forall i | 0 <= i < |files| ensures Look(now', backup(files[i].target)) == v.backups[k := x][i] { PathsDiffer(d, files, backup, i, k); }
    forall i | 0 <= i < |files| ensures Look(now', files[i].temporary) == v.temporaries[i] { PathsDiffer(d, files, backup, k, i); }
  }

  lemma SetTemporary(d: Disk, now: Disk, now': Disk, files: seq<Output>, backup: Path -> Path, v: Slate, k: nat, x: Option<File>)
    requires Distinct(d, files, backup) && Shows(d, now, files, backup, v) && k < |files|
    requires forall p :: Look(now', p) == if p == files[k].temporary then x else Look(now, p)
    ensures Shows(d, now', files, backup, v.(temporaries := v.temporaries[k := x]))
  {
    forall i | 0 <= i < |files| ensures Look(now', files[i].target) == v.targets[i] { PathsDiffer(d, files, backup, k, i); }
    forall i | 0 <= i < |files| ensures Look(now', backup(files[i].target)) == v.backups[i] { PathsDiffer(d, files, backup, i, k); }
    forall i | 0 <= i < |files| ensures Look(now', files[i].temporary) == v.temporaries[k := x][i] { PathsDiffer(d, files, backup, i, k); }
  }

  /** `b` backups and `c` commits after `u`. */
  ghost predicate Advanced(u: Slate, v: Slate, b: nat, c: nat) {
    && |v.targets| == |u.targets| && |v.backups| == |u.targets| && |v.temporaries| == |u.temporaries| == |u.targets|
    && (forall k :: 0 <= k < |u.targets| ==>
          && v.targets[k] == (if k < c then u.temporaries[k] else if k < b then None else u.targets[k])
          && v.backups[k] == (if k < b then u.targets[k] else None)
          && v.temporaries[k] == (if k < c then None else u.temporaries[k]))
  }

  /** The recorded backups: the first `b` targets that existed. */
  ghost predicate Recorded(u: Slate, backups: seq<nat>, b: nat) {
    forall k :: k in backups <==> 0 <= k < b && k < |u.targets| && u.targets[k].Some?
  }

  lemma RecordedMore(u: Slate, backups: seq<nat>, b: nat)
    requires Recorded(u, backups, b) && b < |u.targets|
    ensures Recorded(u, if u.targets[b].Some? then backups + [b] else backups, b + 1)
  {
    var more := backups + [b];
    assert forall k :: k in more <==> k in backups || k == b;
  }

  class Directory {
    var disk: Disk

    constructor (disk: Disk)
      ensures this.disk == disk
    {
      this.disk := disk;
    }

    method Rename(from: Path, to: Path, fails: bool) returns (ok: bool)
      modifies this
      ensures ok == (!fails && from in old(disk) && (to in old(disk) ==> Replaces(old(disk)[from], old(disk)[to])))
      ensures disk == if ok then (old(disk) - {from})[to := old(disk)[from]] else old(disk)
    {
      ok := !fails && from in disk && (to in disk ==> Replaces(disk[from], disk[to]));
      if ok {
        var file := disk[from];
        disk := (disk - {from})[to := file];
      }
    }

    method Remove(p: Path)
      modifies this
      ensures disk == old(disk) - {p}
    {
      disk := disk - {p};
    }

    /** The backup loop of a forced call. */
    method BackUp(files: seq<Output>, backup: Path -> Path, trouble: Trouble)
      returns (ok: bool, backups: seq<nat>, ghost b: nat, ghost v: Slate)
      requires Distinct(disk, files, backup)
      modifies this
      ensures b <= |files| && (ok ==> b == |files|)
      ensures var d := old(disk); Shows(d, disk, files, backup, v) && Advanced(Slate0(d, files), v, b, 0) && Recorded(Slate0(d, files), backups, b)
      ensures ok <==> !BackupFails(old(disk), files, trouble)
    {
      hide Distinct, Shows, Recorded;
      ghost var d := disk;
      ghost var u := Slate0(d, files);
      StartShows(d, files, backup);
      v, b, backups := u, 0, [];
      assert Recorded(u, [], 0) by { NothingRecorded(u); }
      for i := 0 to |files|
        invariant b == i && Shows(d, disk, files, backup, v) && Advanced(u, v, i, 0) && Recorded(u, backups, i)
        invariant forall k :: 0 <= k < i && files[k].target in d ==> d[files[k].target].Regular? && trouble != InBackup(k)
      {
        var target := files[i].target;
        ShownAt(d, disk, files, backup, v, i);
        RecordedMore(u, backups, i);
        if target in disk {
          if !disk[target].Regular? {
            return false, backups, b, v;
          }
          ghost var before := disk;
          BackupIsNew(d, files, backup, i);
          var renamed := Rename(target, backup(target), trouble == InBackup(i));
          if !renamed {
            return false, backups, b, v;
          }
          MoveToBackup(d, before, disk, files, backup, v, i);
          v := v.(targets := v.targets[i := None], backups := v.backups[i := v.targets[i]]);
          backups := backups + [i];
        }
        b := i + 1;
      }
      ok := true;
    }

    /** The commit loop; `c` renames were done when it ends. */
    method CommitAll(files: seq<Output>, ghost backup: Path -> Path, trouble: Trouble, ghost d: Disk, ghost force: bool, ghost v: Slate)
      returns (ok: bool, c: nat, ghost w: Slate)
      requires Distinct(d, files, backup) && Shows(d, disk, files, backup, v)
      requires Advanced(Slate0(d, files), v, if force then |files| else 0, 0)
      modifies this
      ensures c == Renames(d, files, force, trouble, 0) && (ok ==> c == |files|)
      ensures Shows(d, disk, files, backup, w) && Advanced(Slate0(d, files), w, if force then |files| else 0, c)
      ensures ok <==> forall i :: 0 <= i < |files| ==> !Refuses(d, files, force, i) && trouble != InCommit(i) && trouble != InHook(i)
    {
      hide Distinct, Shows, Advanced, Refuses;
      ghost var u, b := Slate0(d, files), if force then |files| else 0;
      w, c := v, 0;
      for i := 0 to |files|
        invariant c == i && Shows(d, disk, files, backup, w) && Advanced(u, w, b, i)
        invariant Renames(d, files, force, trouble, 0) == Renames(d, files, force, trouble, i)
        invariant forall k :: 0 <= k < i ==> !Refuses(d, files, force, k) && trouble != InCommit(k) && trouble != InHook(k)
      {
        ShownAt(d, disk, files, backup, w, i);
        RefusedRename(d, disk, files, force, w, i);
        ghost var before := disk;
        var renamed := Rename(files[i].temporary, files[i].target, trouble == InCommit(i));
        if !renamed {
          return false, c, w;
        }
        MoveToTarget(d, before, disk, files, backup, w, i);
        AdvancedMore(u, w, b, i);
        w := w.(temporaries := w.temporaries[i := None], targets := w.targets[i := w.temporaries[i]]);
        c := i + 1;
        if trouble == InHook(i) {
          return false, c, w;
        }
      }
      ok := true;
    }

    /** After a complete commit the backups go. */
    method DropBackups(files: seq<Output>, backup: Path -> Path, backups: seq<nat>, ghost d: Disk, ghost b: nat, ghost v: Slate)
      requires Distinct(d, files, backup) && Shows(d, disk, files, backup, v) && Advanced(Slate0(d, files), v, b, |files|)
      requires Recorded(Slate0(d, files), backups, b)
      modifies this
      ensures AllCommitted(d, disk, files)
    {
      hide Distinct, Shows, AllCommitted;
      ghost var u, w := Slate0(d, files), v;
      for i := 0 to |backups|
        invariant Shows(d, disk, files, backup, w) && Sized(files, w) && w == v.(backups := w.backups)
        invariant forall k :: 0 <= k < |files| ==> w.backups[k] == if k in backups[..i] then None else v.backups[k]
      {
        var k := backups[i];
        assert k in backups && backups[..i + 1] == backups[..i] + [k];
        ghost var before := disk;
        Remove(backup(files[k].target));
        SetBackup(d, before, disk, files, backup, w, k, None);
        w := w.(backups := w.backups[k := None]);
      }
      assert backups[..|backups|] == backups;
      CommittedShown(d, disk, files, backup, w);
    }

    /** The catch block. */
    method RollBack(files: seq<Output>, backup: Path -> Path, c: nat, backups: seq<nat>, ghost d: Disk, ghost b: nat, ghost v: Slate)
      requires Distinct(d, files, backup) && Shows(d, disk, files, backup, v) && c <= |files|
      requires Advanced(Slate0(d, files), v, b, c) && Recorded(Slate0(d, files), backups, b)
      requires (b == 0 || b == |files| || c == 0) && b <= |files|
      modifies this
      ensures AllUndone(d, disk, files, Overwritten(d, files, b != 0, c))
    {
      hide Distinct, Shows, AllUndone, Overwritten;
      ghost var u := Slate0(d, files);
      ghost var w := RemoveCommitted(files, backup, c, d, v);
      ghost var x := RestoreBackups(files, backup, backups, d, w);
      ghost var y := RemoveTemporaries(files, backup, d, x);
      UndoneShown(d, disk, files, backup, y, b, c);
    }

    method RemoveCommitted(files: seq<Output>, ghost backup: Path -> Path, c: nat, ghost d: Disk, ghost v: Slate) returns (ghost w: Slate)
      requires Distinct(d, files, backup) && Shows(d, disk, files, backup, v) && c <= |files|
      modifies this
      ensures Shows(d, disk, files, backup, w) && Sized(files, v) && Sized(files, w) && w == v.(targets := w.targets)
      ensures forall k :: 0 <= k < |files| ==> w.targets[k] == if k < c then None else v.targets[k]
    {
      assert Sized(files, v);
      hide Distinct, Shows;
      w := v;
      for i := 0 to c
        invariant Shows(d, disk, files, backup, w) && Sized(files, w) && w == v.(targets := w.targets)
        invariant forall k :: 0 <= k < |files| ==> w.targets[k] == if k < i then None else v.targets[k]
      {
        ghost var before := disk;
        Remove(files[i].target);
        SetTarget(d, before, disk, files, backup, w, i, None);
        w := w.(targets := w.targets[i := None]);
      }
    }

    method RestoreBackups(files: seq<Output>, backup: Path -> Path, backups: seq<nat>, ghost d: Disk, ghost v: Slate) returns (ghost w: Slate)
      requires Distinct(d, files, backup) && Shows(d, disk, files, backup, v)
      requires Sized(files, v) && forall k <- backups :: k < |files| && v.targets[k] == None
      modifies this
      ensures Shows(d, disk, files, backup, w) && Sized(files, w) && w.temporaries == v.temporaries
      ensures forall k :: 0 <= k < |files| ==>
                w.targets[k] == (if k in backups && v.backups[k].Some? then v.backups[k] else v.targets[k])
      ensures forall k :: 0 <= k < |files| ==> w.backups[k] == (if k in backups then None else v.backups[k])
    {
      hide Distinct, Shows;
      w := v;
      for i := 0 to |backups|
        invariant Shows(d, disk, files, backup, w) && Sized(files, w) && w.temporaries == v.temporaries
        invariant forall k :: 0 <= k < |files| ==>
                    w.targets[k] == (if k in backups[..i] && v.backups[k].Some? then v.backups[k] else v.targets[k])
        invariant forall k :: 0 <= k < |files| ==> w.backups[k] == (if k in backups[..i] then None else v.backups[k])
      {
        var k := backups[i];
        assert k in backups && backups[..i + 1] == backups[..i] + [k];
        ShownAt(d, disk, files, backup, w, k);
        ghost var before := disk;
        if backup(files[k].target) in disk {
          var renamed := Rename(backup(files[k].target), files[k].target, false);
          assert renamed;
          MoveBack(d, before, disk, files, backup, w, k);
          w := w.(backups := w.backups[k := None], targets := w.targets[k := w.backups[k]]);
        }
      }
      assert backups[..|backups|] == backups;
    }

    method RemoveTemporaries(files: seq<Output>, ghost backup: Path -> Path, ghost d: Disk, ghost v: Slate) returns (ghost w: Slate)
      requires Distinct(d, files, backup) && Shows(d, disk, files, backup, v)
      modifies this
      ensures Shows(d, disk, files, backup, w) && Sized(files, v) && Sized(files, w) && w == v.(temporaries := w.temporaries)
      ensures forall k :: 0 <= k < |files| ==> w.temporaries[k] == None
    {
      assert Sized(files, v);
      hide Distinct, Shows;
      w := v;
      for i := 0 to |files|
        invariant Shows(d, disk, files, backup, w) && Sized(files, w) && w == v.(temporaries := w.temporaries)
        invariant forall k :: 0 <= k < i ==> w.temporaries[k] == None
      {
        ghost var before := disk;
        Remove(files[i].temporary);
        SetTemporary(d, before, disk, files, backup, w, i, None);
        w := w.(temporaries := w.temporaries[i := None]);
      }
    }

    /** All or nothing. On success every target holds its temporary's content and no backup is left;
        on failure the temporaries are gone and every other path is as before, except for targets
        that an unforced call had already overwritten. */
    method CommitOutputFiles(files: seq<Output>, force: bool, backup: Path -> Path, trouble: Trouble)
      returns (ok: bool, committed: nat)
      requires Distinct(disk, files, backup)
      modifies this
      ensures ok <==> Clean(old(disk), files, force, trouble)
      ensures ok ==> AllCommitted(old(disk), disk, files)
      ensures committed == Commits(old(disk), files, force, trouble)
      ensures !ok ==> AllUndone(old(disk), disk, files, Lost(old(disk), files, force, trouble))
      ensures forall p <- Lost(old(disk), files, force, trouble) :: p in old(disk) && p !in disk
    {
      hide Shows, Advanced, Recorded, AllUndone, AllCommitted, Overwritten, Distinct, BackupFails, Renames, Refuses;
      ghost var d := disk;
      ghost var v, b := Slate0(d, files), 0;
      var backups: seq<nat> := [];
      StartShows(d, files, backup);
      assert Advanced(v, v, 0, 0) && Recorded(v, backups, 0) by { NothingDone(d, files); }
      committed := 0;
      ok := true;
      if force {
        ok, backups, b, v := BackUp(files, backup, trouble);
      }
      ghost var w := v;
      if ok {
        ok, committed, w := CommitAll(files, backup, trouble, d, force, v);
      }
      if ok {
        DropBackups(files, backup, backups, d, b, w);
      } else {
        RollBack(files, backup, committed, backups, d, b, w);
        NoLossWithoutFiles(d, files, b, committed, force);
        LostAreMissing(d, disk, files, backup, force, committed);
      }
    }
  }

  lemma AdvancedMore(u: Slate, v: Slate, b: nat, c: nat)
    requires Advanced(u, v, b, c) && c < |u.targets|
    ensures Advanced(u, v.(temporaries := v.temporaries[c := None], targets := v.targets[c := v.temporaries[c]]), b, c + 1)
  {
  }

  /** At its turn a rename meets the disk as it was, with a forced call's targets out of the way. */
  lemma RefusedRename(d: Disk, now: Disk, files: seq<Output>, force: bool, v: Slate, i: nat)
    requires i < |files| && Sized(files, v) && Advanced(Slate0(d, files), v, if force then |files| else 0, i)
    requires Look(now, files[i].target) == v.targets[i] && Look(now, files[i].temporary) == v.temporaries[i]
    ensures Refuses(d, files, force, i) <==>
            !(files[i].temporary in now && (files[i].target in now ==> Replaces(now[files[i].temporary], now[files[i].target])))
  {
    assert v.temporaries[i] == Look(d, files[i].temporary);
    assert v.targets[i] == if force then None else Look(d, files[i].target);
  }

  lemma NothingDone(d: Disk, files: seq<Output>)
    ensures var u := Slate0(d, files); Advanced(u, u, 0, 0) && Recorded(u, [], 0)
  {
  }

  /** A forced call that backed nothing up had committed nothing either. */
  lemma NoLossWithoutFiles(d: Disk, files: seq<Output>, b: nat, c: nat, force: bool)
    requires c <= |files| && (force && b == 0 ==> c == 0) && (!force ==> b == 0)
    ensures Overwritten(d, files, b != 0, c) == Overwritten(d, files, force, c)
  {
  }

  lemma MoveToTarget(d: Disk, now: Disk, now': Disk, files: seq<Output>, backup: Path -> Path, v: Slate, k: nat)
    requires Distinct(d, files, backup) && Shows(d, now, files, backup, v) && k < |files| && files[k].temporary in now
    requires now' == (now - {files[k].temporary})[files[k].target := now[files[k].temporary]]
    ensures Sized(files, v)
    ensures Shows(d, now', files, backup, v.(temporaries := v.temporaries[k := None], targets := v.targets[k := v.temporaries[k]]))
  {
    ShownAt(d, now, files, backup, v, k);
    hide Shows, Distinct;
    var mid := now - {files[k].temporary};
    SetTemporary(d, now, mid, files, backup, v, k, None);
    SetTarget(d, mid, now', files, backup, v.(temporaries := v.temporaries[k := None]), k, v.temporaries[k]);
  }

  lemma MoveBack(d: Disk, now: Disk, now': Disk, files: seq<Output>, backup: Path -> Path, v: Slate, k: nat)
    requires Distinct(d, files, backup) && Shows(d, now, files, backup, v) && k < |files| && backup(files[k].target) in now
    requires now' == (now - {backup(files[k].target)})[files[k].target := now[backup(files[k].target)]]
    ensures Sized(files, v)
    ensures Shows(d, now', files, backup, v.(backups := v.backups[k := None], targets := v.targets[k := v.backups[k]]))
  {
    ShownAt(d, now, files, backup, v, k);
    hide Shows, Distinct;
    var mid := now - {backup(files[k].target)};
    SetBackup(d, now, mid, files, backup, v, k, None);
    SetTarget(d, mid, now', files, backup, v.(backups := v.backups[k := None]), k, v.backups[k]);
  }

  lemma CommittedShown(d: Disk, now: Disk, files: seq<Output>, backup: Path -> Path, v: Slate)
    requires Distinct(d, files, backup) && Shows(d, now, files, backup, v)
    requires forall k :: 0 <= k < |files| ==> v.targets[k] == Look(d, files[k].temporary)
    requires forall k :: 0 <= k < |files| ==> v.temporaries[k] == None && v.backups[k] == None
    ensures AllCommitted(d, now, files)
  {
    forall p | !Occurs(files, |files|, p) ensures Look(now, p) == Look(d, p) {
      if !Elsewhere(files, backup, p) {
        var k :| 0 <= k < |files| && backup(files[k].target) == p;
        assert v.backups[k] == None && p !in d;
      }
    }
  }

  lemma UndoneShown(d: Disk, now: Disk, files: seq<Output>, backup: Path -> Path, v: Slate, b: nat, c: nat)
    requires Distinct(d, files, backup) && Shows(d, now, files, backup, v) && c <= |files|
    requires forall k :: 0 <= k < |files| ==> v.temporaries[k] == None && v.backups[k] == None
    requires forall k :: 0 <= k < |files| ==> v.targets[k] == if b == 0 && k < c then None else Look(d, files[k].target)
    ensures AllUndone(d, now, files, Overwritten(d, files, b != 0, c))
  {
    var lost := Overwritten(d, files, b != 0, c);
    forall p | forall i :: 0 <= i < |files| ==> files[i].temporary != p
      ensures Look(now, p) == if p in lost then None else Look(d, p)
    {
      if k :| 0 <= k < |files| && files[k].target == p {
        PathsDifferAll(d, files, backup, k);
        assert p in lost <==> b == 0 && k < c && p in d;
      } else if k :| 0 <= k < |files| && backup(files[k].target) == p {
        assert v.backups[k] == None && p !in d;
      } else {
        assert Elsewhere(files, backup, p);
      }
    }
  }

  lemma PathsDifferAll(d: Disk, files: seq<Output>, backup: Path -> Path, k: nat)
    requires Distinct(d, files, backup) && k < |files|
    ensures forall i :: 0 <= i < |files| && files[i].target == files[k].target ==> i == k
  {
    forall i | 0 <= i < |files| && files[i].target == files[k].target ensures i == k { PathsDiffer(d, files, backup, i, k); }
  }

  lemma LostAreMissing(d: Disk, now: Disk, files: seq<Output>, backup: Path -> Path, force: bool, n: nat)
    requires Distinct(d, files, backup) && n <= |files| && AllUndone(d, now, files, Overwritten(d, files, force, n))
    ensures forall p <- Overwritten(d, files, force, n) :: p in d && p !in now
  {
    forall p <- Overwritten(d, files, force, n) ensures p in d && p !in now {
      assert forall i :: 0 <= i < |files| ==> files[i].temporary != p;
      assert Look(now, p) == None;
    }
  }

  /** The loop passes exactly the renames that neither the disk nor the environment stops. */
  lemma {:induction false} RenamesReach(d: Disk, files: seq<Output>, force: bool, trouble: Trouble, i: nat, k: nat)
    requires i <= k < |files|
    ensures k < Renames(d, files, force, trouble, i) <==>
            && (forall j :: i <= j <= k ==> !Refuses(d, files, force, j) && trouble != InCommit(j))
            && (forall j :: i <= j < k ==> trouble != InHook(j))
    decreases k - i
  {
    hide Refuses;
    if i < k { RenamesReach(d, files, force, trouble, i + 1, k); }
  }

  /** Some failure of the call destroys a file if and only if the call is unforced and an existing
      target comes before the first rename that the disk refuses. */
  lemma LosesAFileIff(d: Disk, files: seq<Output>, force: bool)
    ensures (exists trouble :: Lost(d, files, force, trouble) != {}) <==>
            !force && exists i :: 0 <= i < |files| && files[i].target in d
                                  && forall j :: 0 <= j <= i ==> !Refuses(d, files, false, j)
  {
    hide Refuses, Renames, BackupFails;
    if trouble :| Lost(d, files, force, trouble) != {} {
      var p :| p in Lost(d, files, force, trouble);
      var i :| 0 <= i < Commits(d, files, force, trouble) && files[i].target == p && p in d;
      RenamesReach(d, files, force, trouble, 0, i);
    }
    if i :| !force && 0 <= i < |files| && files[i].target in d && forall j :: 0 <= j <= i ==> !Refuses(d, files, false, j) {
      RenamesReach(d, files, false, InHook(i), 0, i);
      assert files[i].target in Lost(d, files, force, InHook(i));
    }
  }

  /** A concrete loss: an unforced call over an existing file, interrupted by its hook. */
  method UnforcedOverwriteLosesTheFile() returns (ok: bool, left: Disk)
    ensures !ok && "out" !in left
  {
    var before: Disk := map["out" := Regular([1]), "out.tmp" := Regular([2])];
    var files := [Output("out.tmp", "out")];
    var dir := new Directory(before);
    var n;
    ok, n := dir.CommitOutputFiles(files, false, (p: Path) => p + ".backup", InHook(0));
    left := dir.disk;
    RenamesReach(before, files, false, InHook(0), 0, 0);
    assert files[0].target in Lost(before, files, false, InHook(0));
  }

  lemma NothingRecorded(u: Slate)
    ensures Recorded(u, [], 0)
  {
  }

  lemma ShownAt(d: Disk, now: Disk, files: seq<Output>, backup: Path -> Path, v: Slate, i: nat)
    requires Shows(d, now, files, backup, v) && i < |files|
    ensures Sized(files, v) && Look(now, files[i].target) == v.targets[i] && Look(now, files[i].temporary) == v.temporaries[i]
    ensures Look(now, backup(files[i].target)) == v.backups[i]
  {
  }

  lemma BackupIsNew(d: Disk, files: seq<Output>, backup: Path -> Path, i: nat)
    requires Distinct(d, files, backup) && i < |files|
    ensures backup(files[i].target) !in d
  {
  }

  lemma MoveToBackup(d: Disk, now: Disk, now': Disk, files: seq<Output>, backup: Path -> Path, v: Slate, k: nat)
    requires Distinct(d, files, backup) && Shows(d, now, files, backup, v) && k < |files| && files[k].target in now
    requires now' == (now - {files[k].target})[backup(files[k].target) := now[files[k].target]]
    ensures Sized(files, v)
    ensures Shows(d, now', files, backup, v.(targets := v.targets[k := None], backups := v.backups[k := v.targets[k]]))
  {
    ShownAt(d, now, files, backup, v, k);
    hide Shows, Distinct;
    var mid := now - {files[k].target};
    SetTarget(d, now, mid, files, backup, v, k, None);
    SetBackup(d, mid, now', files, backup, v.(targets := v.targets[k := None]), k, v.targets[k]);
  }
}
