/** A parked VM's three files, and the renames that move them into and out of a jail. */
module SnapshotFiles {
  import opened Common

  /** The directories a rename may name: a VM's parked directory, a jail's root, and the agent's own
      working directory, which is what an empty jail root stands for. */
  datatype Where = Parked | Jail | Cwd

  datatype File = File(dir: Where, name: string)

  /** What is in each file. */
  type Fs = map<File, nat>

  const SNAPSHOT: seq<string> := ["vmstate", "mem", "rootfs.ext4"]
  const PARK: seq<string> := ["park.vmstate", "park.mem", "rootfs.ext4"]
  const WAKE: seq<string> := ["wake.vmstate", "wake.mem", "rootfs.ext4"]

  predicate Distinct(names: seq<string>) { forall i, j | 0 <= i < j < |names| :: names[i] != names[j] }

  lemma NamesDistinct()
    ensures Distinct(SNAPSHOT) && Distinct(PARK) && Distinct(WAKE)
    ensures |SNAPSHOT| == |PARK| == |WAKE| == 3
  {
    assert SNAPSHOT[0][0] == 'v' && SNAPSHOT[1][0] == 'm' && SNAPSHOT[2][0] == 'r';
    assert PARK[0][5] == 'v' && PARK[1][5] == 'm' && PARK[2][0] == 'r';
    assert WAKE[0][5] == 'v' && WAKE[1][5] == 'm' && WAKE[2][0] == 'r';
  }

  function Rename(fs: Fs, a: File, b: File): Fs
    requires a in fs
  {
    (fs - {a})[b := fs[a]]
  }

  /** One rename: refused by the host, or with nothing to rename, it changes nothing. */
  function Tried(fs: Fs, a: File, b: File, refused: bool): Fs {
    if refused || a !in fs then fs else Rename(fs, a, b)
  }

  /** The renames of the first `n` files. */
  function Moved(fs: Fs, src: Where, froms: seq<string>, dst: Where, tos: seq<string>, refused: set<int>, n: nat): Fs
    requires n <= |froms| == |tos|
  {
    if n == 0 then fs
    else Tried(Moved(fs, src, froms, dst, tos, refused, n - 1),
               File(src, froms[n - 1]), File(dst, tos[n - 1]), n - 1 in refused)
  }

  /** Renames each file, tries every one, and says whether all worked. */
  method MoveFiles(fs: Fs, src: Where, froms: seq<string>, dst: Where, tos: seq<string>, refused: set<int>)
    returns (fs': Fs, ok: bool)
    requires |froms| == |tos| && src != dst && Distinct(froms) && Distinct(tos)
    ensures fs' == Moved(fs, src, froms, dst, tos, refused, |froms|)
    ensures ok <==> forall i | 0 <= i < |froms| :: i !in refused && File(src, froms[i]) in fs
  {
    fs', ok := fs, true;
    for i := 0 to |froms|
      invariant fs' == Moved(fs, src, froms, dst, tos, refused, i)
      invariant ok <==> forall k | 0 <= k < i :: k !in refused && File(src, froms[k]) in fs
    {
      StillToMove(fs, src, froms, dst, tos, refused, i);
      if i in refused || File(src, froms[i]) !in fs' {
        ok := false;
      } else {
        fs' := Rename(fs', File(src, froms[i]), File(dst, tos[i]));
      }
    }
  }

  lemma StillToMove(fs: Fs, src: Where, froms: seq<string>, dst: Where, tos: seq<string>, refused: set<int>, i: nat)
    requires i < |froms| == |tos| && src != dst && Distinct(froms) && Distinct(tos)
    ensures File(src, froms[i]) in Moved(fs, src, froms, dst, tos, refused, i) <==> File(src, froms[i]) in fs
  {
    MovedIs(fs, src, froms, dst, tos, refused, i);
    assert Same(fs, Moved(fs, src, froms, dst, tos, refused, i), File(src, froms[i]));
  }

  predicate Moves(fs: Fs, src: Where, froms: seq<string>, refused: set<int>, i: int)
    requires 0 <= i < |froms|
  {
    i !in refused && File(src, froms[i]) in fs
  }

  /** What the first `n` renames leave of one of the listed files, under its old name and its new one. */
  lemma {:induction false} MovedAt(
    fs: Fs, src: Where, froms: seq<string>, dst: Where, tos: seq<string>, refused: set<int>, n: nat, i: nat)
    requires n <= |froms| == |tos| && src != dst && Distinct(froms) && Distinct(tos) && i < |froms|
    ensures var fs' := Moved(fs, src, froms, dst, tos, refused, n);
            if i < n && Moves(fs, src, froms, refused, i) then
              File(dst, tos[i]) in fs' && fs'[File(dst, tos[i])] == fs[File(src, froms[i])] && File(src, froms[i]) !in fs'
            else Same(fs, fs', File(src, froms[i])) && Same(fs, fs', File(dst, tos[i]))
  {
    if n > 0 {
      MovedAt(fs, src, froms, dst, tos, refused, n - 1, i);
      if n - 1 != i { assert froms[n - 1] != froms[i] && tos[n - 1] != tos[i]; }
    }
  }

  lemma {:induction false} MovedElsewhere(
    fs: Fs, src: Where, froms: seq<string>, dst: Where, tos: seq<string>, refused: set<int>, n: nat, f: File)
    requires n <= |froms| == |tos|
    requires !(f.dir == dst && f.name in tos) && !(f.dir == src && f.name in froms)
    ensures Same(fs, Moved(fs, src, froms, dst, tos, refused, n), f)
  {
    if n > 0 { MovedElsewhere(fs, src, froms, dst, tos, refused, n - 1, f); }
  }

  /** File by file: what the first `n` renames leave. */
  lemma MovedIs(
    fs: Fs, src: Where, froms: seq<string>, dst: Where, tos: seq<string>, refused: set<int>, n: nat)
    requires n <= |froms| == |tos| && src != dst && Distinct(froms) && Distinct(tos)
    ensures var fs' := Moved(fs, src, froms, dst, tos, refused, n);
            && (forall i | 0 <= i < n && Moves(fs, src, froms, refused, i) ::
                  File(dst, tos[i]) in fs' && fs'[File(dst, tos[i])] == fs[File(src, froms[i])] &&
                  File(src, froms[i]) !in fs')
            && (forall i | 0 <= i < |froms| && (i >= n || !Moves(fs, src, froms, refused, i)) ::
                  Same(fs, fs', File(src, froms[i])) && Same(fs, fs', File(dst, tos[i])))
            && (forall f: File | !(f.dir == dst && f.name in tos) && !(f.dir == src && f.name in froms) :: Same(fs, fs', f))
  {
    forall i | 0 <= i < |froms| { MovedAt(fs, src, froms, dst, tos, refused, n, i); }
    forall f: File | !(f.dir == dst && f.name in tos) && !(f.dir == src && f.name in froms) {
      MovedElsewhere(fs, src, froms, dst, tos, refused, n, f);
    }
  }

  predicate Same(fs: Fs, fs': Fs, f: File) {
    (f in fs <==> f in fs') && (f in fs ==> fs[f] == fs'[f])
  }

  /** The parked directory is as it was. */
  ghost predicate SameParked(fs: Fs, fs': Fs) { forall f: File | f.dir == Parked :: Same(fs, fs', f) }

  // ------------------------------------------------------------------ a wake --

  /** Where a wake fails. */
  datatype WakeFailure =
    | NamespaceFailed              // before the jail's root is known
    | HostStepFailed               // after, and before the snapshot is moved
    | MoveFailed(refused: set<int>)
    | LoadFailed                   // owning the files, or loading the snapshot

  function InJail(fs: Fs, refused: set<int>): Fs {
    NamesDistinct();
    Moved(fs, Parked, SNAPSHOT, Jail, WAKE, refused, 3)
  }

  /** The file system when the wake fails. */
  function AtFailure(fs: Fs, why: WakeFailure): Fs {
    match why
    case NamespaceFailed => fs
    case HostStepFailed => fs
    case MoveFailed(refused) => InJail(fs, refused)
    case LoadFailed => InJail(fs, {})
  }

  /** The directory the failed wake moves the snapshot back from. */
  function BackFrom(why: WakeFailure): Where { if why.NamespaceFailed? then Cwd else Jail }

  /** What a failed wake leaves, its put-back renames in `refused` failing; the jail then goes. */
  function AfterFailedWake(fs: Fs, why: WakeFailure, refused: set<int>): Fs {
    NamesDistinct();
    Moved(AtFailure(fs, why), BackFrom(why), WAKE, Parked, SNAPSHOT, refused, 3)
  }

  /** The wake had moved the file into its jail when it failed. */
  predicate MovedIn(fs: Fs, why: WakeFailure, i: nat)
    requires i < 3
  {
    match why
    case MoveFailed(refused) => i !in refused && File(Parked, SNAPSHOT[i]) in fs
    case LoadFailed => File(Parked, SNAPSHOT[i]) in fs
    case _ => false
  }

  /** The put-back leaves the file as it was: one that the wake had moved is not refused; under the name of one that it
      had not, the directory that is taken for the jail has nothing, or the same, or the rename is refused. */
  predicate PutBackSafe(fs: Fs, why: WakeFailure, refused: set<int>, i: nat)
    requires i < 3
  {
    if MovedIn(fs, why, i) then i !in refused
    else
      var taken := File(BackFrom(why), WAKE[i]);
      taken in fs ==> i in refused || (File(Parked, SNAPSHOT[i]) in fs && fs[File(Parked, SNAPSHOT[i])] == fs[taken])
  }

  /** What of one file the parked directory and the directory that is taken for the jail hold when the wake fails. */
  lemma AtFailureIs(fs: Fs, why: WakeFailure, i: nat)
    requires i < 3
    ensures var mid := AtFailure(fs, why);
            if MovedIn(fs, why, i) then
              File(Jail, WAKE[i]) in mid && mid[File(Jail, WAKE[i])] == fs[File(Parked, SNAPSHOT[i])] &&
              File(Parked, SNAPSHOT[i]) !in mid && BackFrom(why) == Jail
            else Same(fs, mid, File(Parked, SNAPSHOT[i])) && Same(fs, mid, File(BackFrom(why), WAKE[i]))
  {
    NamesDistinct();
    match why
    case MoveFailed(refused) => MovedAt(fs, Parked, SNAPSHOT, Jail, WAKE, refused, 3, i);
    case LoadFailed => MovedAt(fs, Parked, SNAPSHOT, Jail, WAKE, {}, 3, i);
    case _ =>
  }

  lemma FileKeptExactly(fs: Fs, why: WakeFailure, refused: set<int>, i: nat)
    requires i < 3
    ensures Same(fs, AfterFailedWake(fs, why, refused), File(Parked, SNAPSHOT[i])) <==> PutBackSafe(fs, why, refused, i)
  {
    NamesDistinct();
    AtFailureIs(fs, why, i);
    MovedAt(AtFailure(fs, why), BackFrom(why), WAKE, Parked, SNAPSHOT, refused, 3, i);
  }

  /** The parked directory's other files are nothing to a wake. */
  lemma OthersKept(fs: Fs, why: WakeFailure, refused: set<int>, f: File)
    requires f.dir == Parked && f.name !in SNAPSHOT
    ensures Same(fs, AfterFailedWake(fs, why, refused), f)
  {
    NamesDistinct();
    match why {
      case MoveFailed(r) => MovedElsewhere(fs, Parked, SNAPSHOT, Jail, WAKE, r, 3, f);
      case LoadFailed => MovedElsewhere(fs, Parked, SNAPSHOT, Jail, WAKE, {}, 3, f);
      case _ =>
    }
    MovedElsewhere(AtFailure(fs, why), BackFrom(why), WAKE, Parked, SNAPSHOT, refused, 3, f);
  }

  /** Whatever the directories hold, wherever a wake fails and whichever of the put-back's renames are refused, the
      parked directory is as it was if and only if the put-back is safe for each of the three files. */
  lemma FailedWakeKeepsSnapshot(fs: Fs, why: WakeFailure, refused: set<int>)
    ensures SameParked(fs, AfterFailedWake(fs, why, refused)) <==> forall i: nat | i < 3 :: PutBackSafe(fs, why, refused, i)
  {
    NamesDistinct();
    var end := AfterFailedWake(fs, why, refused);
    forall i: nat | i < 3
      ensures Same(fs, end, File(Parked, SNAPSHOT[i])) <==> PutBackSafe(fs, why, refused, i)
    {
      FileKeptExactly(fs, why, refused, i);
    }
    if forall i: nat | i < 3 :: PutBackSafe(fs, why, refused, i) {
      forall f: File | f.dir == Parked ensures Same(fs, end, f) {
        if f.name in SNAPSHOT {
          var i: nat :| i < 3 && SNAPSHOT[i] == f.name;
          assert f == File(Parked, SNAPSHOT[i]) && PutBackSafe(fs, why, refused, i);
        } else {
          OthersKept(fs, why, refused, f);
        }
      }
    }
  }

  /** In a new jail, with a namespace, and with every rename of the put-back working, every failed wake keeps it. */
  lemma FailedWakeInNewJail(fs: Fs, why: WakeFailure)
    requires !why.NamespaceFailed? && forall i | 0 <= i < 3 :: File(Jail, WAKE[i]) !in fs
    ensures SameParked(fs, AfterFailedWake(fs, why, {}))
  {
    FailedWakeKeepsSnapshot(fs, why, {});
  }

  /** A parked VM's three files, and another. */
  function ParkedAnd(f: File, content: nat): Fs {
    map[File(Parked, SNAPSHOT[0]) := 1, File(Parked, SNAPSHOT[1]) := 2, File(Parked, SNAPSHOT[2]) := 3][f := content]
  }

  lemma OtherRootfsTaken(why: WakeFailure)
    requires why.NamespaceFailed? || why.HostStepFailed?
    ensures !SameParked(ParkedAnd(File(BackFrom(why), WAKE[2]), 9), AfterFailedWake(ParkedAnd(File(BackFrom(why), WAKE[2]), 9), why, {}))
  {
    NamesDistinct();
    var fs := ParkedAnd(File(BackFrom(why), WAKE[2]), 9);
    assert SNAPSHOT[0] != SNAPSHOT[2] && SNAPSHOT[1] != SNAPSHOT[2];
    assert fs[File(Parked, SNAPSHOT[2])] == 3 && fs[File(BackFrom(why), WAKE[2])] == 9;
    assert !PutBackSafe(fs, why, {}, 2);
    FailedWakeKeepsSnapshot(fs, why, {});
  }

  /** A rootfs in the agent's working directory replaces a parked VM's when its wake cannot make a namespace. */
  lemma RootfsReplaced()
    ensures var fs := ParkedAnd(File(Cwd, "rootfs.ext4"), 9);
            !SameParked(fs, AfterFailedWake(fs, NamespaceFailed, {}))
  {
    assert WAKE[2] == "rootfs.ext4";
    OtherRootfsTaken(NamespaceFailed);
  }

  /** A rootfs that an earlier VM left in the jail does when its wake fails before the snapshot is moved. */
  lemma LeftoverReplaces()
    ensures var fs := ParkedAnd(File(Jail, "rootfs.ext4"), 9);
            !SameParked(fs, AfterFailedWake(fs, HostStepFailed, {}))
  {
    assert WAKE[2] == "rootfs.ext4";
    OtherRootfsTaken(HostStepFailed);
  }

  // ------------------------------------------------------------------ a park --

  datatype Parking = Kept | Resumed | Lost

  /** How the foreign calls of a park go: `refused` are the renames that fail, and `cleaned` the half-written files
      of a failed snapshot that are removed. */
  datatype ParkCalls = ParkCalls(
    makeDir: bool, pause: bool, snapshot: bool, resume: bool, refused: set<int>, cleaned: set<int>, removeDir: bool)
  {
    /** Every call that a park has to have works. */
    predicate AllWork() { makeDir && pause && snapshot && forall i | 0 <= i < 3 :: i !in refused }
    /** Nothing is taken from the VM: it is not paused, or it runs again. */
    predicate LetsItRun() { !makeDir || !pause || (!snapshot && resume) }
  }

  /** A park: its outcome, what it leaves, and whether its VMM still runs.  `state` and `memory` are what the
      snapshot holds; the rootfs is the jail's own.  What an earlier park may have left is replaced.  The VM it does
      not keep runs on, with its rootfs where it was, exactly when it was not paused or could be resumed; a VM that is
      lost is left to be killed when its snapshot failed, and dead after that. */
  method Park(fs: Fs, calls: ParkCalls, state: nat, memory: nat)
    returns (fs': Fs, outcome: Parking, lives: bool)
    requires File(Jail, PARK[2]) in fs
    ensures outcome == if calls.AllWork() then Kept else if calls.LetsItRun() then Resumed else Lost
    ensures lives <==> !(calls.makeDir && calls.pause && calls.snapshot)
    ensures outcome.Kept? ==> Whole(fs', state, memory, fs[File(Jail, PARK[2])])
    ensures outcome.Resumed? ==> Same(fs, fs', File(Jail, PARK[2]))
    ensures forall f: File | f.dir == Cwd || (f.dir == Jail && f.name !in PARK) :: Same(fs, fs', f)
    ensures !outcome.Kept? && calls.removeDir ==> forall i | 0 <= i < 3 :: File(Parked, SNAPSHOT[i]) !in fs'
  {
    fs', outcome, lives := ParkSteps(fs, calls, state, memory);
    if !outcome.Kept? && calls.removeDir {
      fs' := map f | f in fs' && f.dir != Parked :: fs'[f];
    }
  }

  /** All three files, belonging together. */
  predicate Whole(fs: Fs, state: nat, memory: nat, rootfs: nat) {
    && File(Parked, SNAPSHOT[0]) in fs && fs[File(Parked, SNAPSHOT[0])] == state
    && File(Parked, SNAPSHOT[1]) in fs && fs[File(Parked, SNAPSHOT[1])] == memory
    && File(Parked, SNAPSHOT[2]) in fs && fs[File(Parked, SNAPSHOT[2])] == rootfs
  }

  method ParkSteps(fs: Fs, calls: ParkCalls, state: nat, memory: nat)
    returns (fs': Fs, outcome: Parking, lives: bool)
    requires File(Jail, PARK[2]) in fs
    ensures outcome == if calls.AllWork() then Kept else if calls.LetsItRun() then Resumed else Lost
    ensures lives <==> !(calls.makeDir && calls.pause && calls.snapshot)
    ensures outcome.Kept? ==> Whole(fs', state, memory, fs[File(Jail, PARK[2])])
    ensures outcome.Resumed? ==> Same(fs, fs', File(Jail, PARK[2]))
    ensures forall f: File | f.dir == Cwd || (f.dir == Jail && f.name !in PARK) :: Same(fs, fs', f)
  {
    NamesDistinct();
    if !calls.makeDir || !calls.pause {
      return fs, Resumed, true;
    }
    if !calls.snapshot {
      fs' := fs - set i | i in calls.cleaned && 0 <= i < 2 :: File(Jail, PARK[i]);
      return fs', if calls.resume then Resumed else Lost, true;
    }
    var jailed := fs[File(Jail, PARK[0]) := state][File(Jail, PARK[1]) := memory];
    var ok: bool;
    fs', ok := MoveFiles(jailed, Jail, PARK, Parked, SNAPSHOT, calls.refused);
    MovedIs(jailed, Jail, PARK, Parked, SNAPSHOT, calls.refused, 3);
    lives := false;
    assert forall i | 0 <= i < 3 :: File(Jail, PARK[i]) in jailed;
    if ok {
      assert Moves(jailed, Jail, PARK, calls.refused, 0) && Moves(jailed, Jail, PARK, calls.refused, 1)
        && Moves(jailed, Jail, PARK, calls.refused, 2);
      outcome := Kept;
    } else {
      outcome := Lost;
    }
  }
}
