/** A parked VM can be woken: what keeps that so, and exactly what does not. */
module Snapshots {
  import opened Common
  import opened Registry
  import opened RegistryInvariant
  import opened RegistryRuns
  import opened Recovery
  import opened NodeTheorems

  /** What matters to a name's snapshot: its entry, task and supervisor, and the two places its files can be. */
  datatype View = View(entry: Option<Entry>, job: Option<Job>, sup: Option<Sup>, dir: Option<Dir>, jail: Dir)

  function ViewAt(s: Node, n: Name): View {
    var entry := Get(s.m.vms, n);
    View(entry, Get(s.m.jobs, n), Get(s.m.sups, n), Get(s.d.parked, n),
         if entry.Some? && entry.value.Holds() then s.d.HostAt(entry.value.addr).jail else map[])
  }

  predicate HasWholeOf(dir: Option<Dir>, p: Proc) { dir.Some? && WholeOf(dir.value, p) }

  /** Each of the three files, all of the park of `p`, is in the parked directory, or a wake has moved it to its jail. */
  predicate WakeableView(v: View, p: Proc) {
    v.entry.Some? &&
    match v.entry.value
    case Ended(_) => v.entry.value.Parked() && HasWholeOf(v.dir, p)
    case Starting(_, _, _) =>
      && v.job.Some? && v.job.value.kind.FromSnapshot?
      && (match v.job.value.pc
          case Entering => HasWholeOf(v.dir, p)
          case Building => v.dir.Some? && WholeOf(v.jail + v.dir.value, p)
          case PuttingBack => v.dir.Some? && WholeOf(v.jail + v.dir.value, p)
          case PuttingBackCwd(_) => HasWholeOf(v.dir, p)
          case Unwinding => HasWholeOf(v.dir, p)
          case Failed => HasWholeOf(v.dir, p)
          case _ => false)
    case Running(_, _, _, _) =>
      v.sup.Some? && (v.sup.value == Down(Reason.Parked) || v.sup.value == Gone(Reason.Parked)) && HasWholeOf(v.dir, p)
  }

  /** The VM is parked, or about to be recorded as parked, or being woken, and its snapshot, which the park of the VM of
      `p` made, is whole. */
  predicate Wakeable(s: Node, n: Name, p: Proc) { WakeableView(ViewAt(s, n), p) }

  /** A wake's task works from a parked record, and no task or supervisor is without its entry. */
  predicate ViewShaped(v: View) {
    && (v.job.Some? ==> v.entry.Some? && v.entry.value.Starting?)
    && (v.sup.Some? ==> v.entry.Some? && v.entry.value.Running?)
    && (v.job.Some? && v.job.value.kind.FromSnapshot? ==> v.job.value.kind.from.reason.Parked?)
  }

  lemma ShapedView(s: Node, n: Name)
    requires Shaped(CellAt(s, n))
    ensures ViewShaped(ViewAt(s, n))
  {
  }

  /** The snapshot is meant to go: the VM is removed, or has woken. */
  predicate UsesUp(st: Step, n: Name) { st == Api(Remove(n)) || st == Build(BuildOk(n)) }

  /** Everything that loses a snapshot: an rm that fails having removed some of it; a put-back that renames over one of
      its files another that an earlier VM left in the jail, or, for a wake without a namespace, one that is in the
      agent's working directory; a put-back that leaves a file behind; and a restart when the database says the VM is
      not parked, because it refused that end (`refused`) or has not been told of it, or when some of the snapshot is
      not in the parked directory. */
  predicate Harms(s: Node, st: Step, n: Name, refused: bool) {
    match st
    case Api(RemoveFails(n', left)) => n' == n && !HasWhole(left)
    case Build(MoveBack(n', f)) =>
      n' == n && n in s.m.vms && s.m.vms[n].Holds() && f in s.d.HostAt(s.m.vms[n].addr).jail &&
      Replaces(s.d.DirAt(n), f, s.d.HostAt(s.m.vms[n].addr).jail[f])
    case Build(TakeCwd(n', f, found)) => n' == n && Replaces(s.d.DirAt(n), f, found)
    case Build(PutBackDone(n')) => n' == n && !HasWhole(Get(s.d.parked, n))
    case Restart(_, _, _) => refused || n in s.m.sups || !HasWhole(Get(s.d.parked, n))
    case _ => false
  }

  /** A file of other content takes its place. */
  predicate Replaces(dir: Dir, f: SnapFile, c: Content) { f in dir && dir[f] != c }

  lemma WholeIsOf(dir: Dir, p: Proc, jail: Dir)
    ensures WholeOf(dir, p) ==> Whole(dir) && WholeOf(jail + dir, p)
    ensures WholeOf(jail + dir, p) && Whole(dir) ==> WholeOf(dir, p)
  {
  }

  lemma FailedRemoveHarms(s: Node, n: Name, left: Option<Dir>, p: Proc)
    requires Wakeable(s, n, p) && CanApi(s, RemoveFails(n, left))
    ensures Wakeable(DoApi(s, RemoveFails(n, left)), n, p) <==> HasWhole(left)
  {
    if left.Some? {
      forall f | f in left.value ensures f in s.d.DirAt(n) && left.value[f] == s.d.DirAt(n)[f] {
        assert (f, left.value[f]) in left.value.Items;
      }
      WholeIsOf(left.value, p, map[]);
    }
  }

  lemma ApiHarms(s: Node, st: ApiStep, n: Name, p: Proc)
    requires Wakeable(s, n, p) && CanApi(s, st) && st != Remove(n)
    ensures Wakeable(DoApi(s, st), n, p) <==> !Harms(s, Api(st), n, false)
  {
    if st.RemoveFails? && st.n == n { FailedRemoveHarms(s, n, st.left, p); }
  }

  lemma MoveInHarms(s: Node, n: Name, f: SnapFile, p: Proc)
    requires Wakeable(s, n, p) && CanBuild(s, MoveIn(n, f))
    ensures Wakeable(DoBuild(s, MoveIn(n, f)), n, p)
  {
    MovedWhole(s.d.parked[n], s.d.HostAt(s.m.vms[n].addr).jail, f);
  }

  lemma MoveBackHarms(s: Node, n: Name, f: SnapFile, p: Proc)
    requires Wakeable(s, n, p) && CanBuild(s, MoveBack(n, f))
    ensures Wakeable(DoBuild(s, MoveBack(n, f)), n, p) <==> !Harms(s, Build(MoveBack(n, f)), n, false)
  {
    var dir, jail := s.d.parked[n], s.d.HostAt(s.m.vms[n].addr).jail;
    if !Replaces(dir, f, jail[f]) {
      MovedBackWhole(dir, jail, f);
    } else {
      assert ((jail - {f}) + dir[f := jail[f]])[f] == jail[f] != dir[f] == (jail + dir)[f];
    }
  }

  lemma TakeCwdHarms(s: Node, n: Name, f: SnapFile, found: Content, p: Proc)
    requires Wakeable(s, n, p) && CanBuild(s, TakeCwd(n, f, found))
    ensures Wakeable(DoBuild(s, TakeCwd(n, f, found)), n, p) <==> !Harms(s, Build(TakeCwd(n, f, found)), n, false)
  {
    var dir := s.d.parked[n];
    if dir[f] == found { assert dir[f := found] == dir; }
  }

  lemma PutBackDoneHarms(s: Node, n: Name, p: Proc)
    requires Wakeable(s, n, p) && CanBuild(s, PutBackDone(n))
    ensures Wakeable(DoBuild(s, PutBackDone(n)), n, p) <==> !Harms(s, Build(PutBackDone(n)), n, false)
  {
    WholeIsOf(s.d.parked[n], p, s.d.HostAt(s.m.vms[n].addr).jail);
  }

  lemma OwnBuildKeeps(s: Node, st: BuildStep, n: Name, p: Proc)
    requires Wakeable(s, n, p) && ViewShaped(ViewAt(s, n)) && CanBuild(s, st) && st.n == n && !st.BuildOk?
    requires !st.MoveIn? && !st.MoveBack? && !st.TakeCwd? && !st.PutBackDone?
    ensures Wakeable(DoBuild(s, st), n, p)
  {
    if n in s.d.parked { WholeIsOf(s.d.parked[n], p, s.d.HostAt(s.m.vms[n].addr).jail); }
  }

  lemma OwnBuildHarms(s: Node, st: BuildStep, n: Name, p: Proc)
    requires Wakeable(s, n, p) && ViewShaped(ViewAt(s, n)) && CanBuild(s, st) && st.n == n && !st.BuildOk?
    ensures Wakeable(DoBuild(s, st), n, p) <==> !Harms(s, Build(st), n, false)
  {
    match st
    case MoveIn(_, f) => MoveInHarms(s, n, f, p);
    case MoveBack(_, f) => MoveBackHarms(s, n, f, p);
    case TakeCwd(_, f, found) => TakeCwdHarms(s, n, f, found, p);
    case PutBackDone(_) => PutBackDoneHarms(s, n, p);
    case _ => OwnBuildKeeps(s, st, n, p);
  }

  lemma HostElsewhere(s: Node, st: BuildStep, a: Addr)
    requires CanBuild(s, st) && a != s.m.vms[st.n].addr
    ensures DoBuild(s, st).d.HostAt(a) == s.d.HostAt(a)
  {
  }

  lemma OtherBuildHarms(s: Node, st: BuildStep, n: Name)
    requires CanBuild(s, st) && st.n != n
    requires n in s.m.vms && s.m.vms[n].Holds() ==> DoBuild(s, st).d.HostAt(s.m.vms[n].addr) == s.d.HostAt(s.m.vms[n].addr)
    ensures ViewAt(DoBuild(s, st), n) == ViewAt(s, n)
  {
    BuildFrame(s, st);
    assert Get(DoBuild(s, st).m.jobs, n) == Get(s.m.jobs, n) && Get(DoBuild(s, st).d.parked, n) == Get(s.d.parked, n);
  }

  lemma OtherTaskHarms(s: Node, st: TaskStep, n: Name)
    requires CanTask(s, st) && TaskName(st) != Some(n)
    ensures ViewAt(DoTask(s, st), n) == ViewAt(s, n)
  {
    assert DoTask(s, st).d.host == s.d.host;
  }

  lemma OwnTaskHarms(s: Node, st: TaskStep, n: Name, p: Proc)
    requires Wakeable(s, n, p) && ViewShaped(ViewAt(s, n)) && CanTask(s, st) && TaskName(st) == Some(n)
    ensures Wakeable(DoTask(s, st), n, p)
  {
    assert st.PutBackParked?;
  }

  lemma OtherGoneHarms(s: Node, n': Name, n: Name)
    requires CanSup(s, SupGone(n')) && n' != n
    requires n in s.m.vms && s.m.vms[n].Holds() ==> s.m.vms[n].addr != s.m.vms[n'].addr
    ensures ViewAt(DoSup(s, SupGone(n')), n) == ViewAt(s, n)
  {
  }

  lemma OtherMoveHarms(s: Node, n': Name, f: SnapFile, n: Name)
    requires CanSup(s, ParkMove(n', f)) && n' != n
    requires n in s.m.vms && s.m.vms[n].Holds() ==> s.m.vms[n].addr != s.m.vms[n'].addr
    ensures ViewAt(DoSup(s, ParkMove(n', f)), n) == ViewAt(s, n)
  {
  }

  lemma OtherEndHarms(s: Node, n': Name, ok: bool, n: Name)
    requires CanSup(s, RecordEnd(n', ok)) && n' != n
    ensures ViewAt(DoSup(s, RecordEnd(n', ok)), n) == ViewAt(s, n)
  {
  }

  /** The step may change the parked directory. */
  predicate TouchesDir(st: SupStep) { st.ParkBegin? || st.ParkResumed? || st.ParkLost? }

  lemma OtherDirHarms(s: Node, st: SupStep, n: Name)
    requires CanSup(s, st) && SupName(st) != Some(n) && TouchesDir(st)
    ensures ViewAt(DoSup(s, st), n) == ViewAt(s, n)
  {
    assert DoSup(s, st).d.host == s.d.host && DoSup(s, st).m.vms == s.m.vms && DoSup(s, st).m.jobs == s.m.jobs;
  }

  lemma OtherSupHarms(s: Node, st: SupStep, n: Name)
    requires CanSup(s, st) && SupName(st) != Some(n) && !TouchesDir(st) && !st.SupGone? && !st.RecordEnd? && !st.ParkMove?
    ensures ViewAt(DoSup(s, st), n) == ViewAt(s, n)
  {
  }

  lemma OwnSupHarms(s: Node, st: SupStep, n: Name, p: Proc)
    requires Wakeable(s, n, p) && ViewShaped(ViewAt(s, n)) && CanSup(s, st) && SupName(st) == Some(n)
    ensures Wakeable(DoSup(s, st), n, p)
  {
    assert st.SupGone? || st.RecordEnd?;
  }

  lemma ParkHarms(s: Node, st: ParkStep, n: Name, p: Proc)
    requires Wakeable(s, n, p) && CanPark(s, st)
    ensures Wakeable(DoPark(s, st), n, p)
  {
  }

  lemma EdgeHarms(s: Node, st: EdgeStep, n: Name, p: Proc)
    requires Wakeable(s, n, p) && CanEdge(s, st)
    ensures Wakeable(DoEdge(s, st), n, p)
  {
    EdgeFrame(s, st);
    assert ViewAt(DoEdge(s, st), n) == ViewAt(s, n);
  }

  /** What the database says of a VM that can be woken. */
  lemma WakeableRow(s: Node, n: Name, p: Proc)
    requires Wakeable(s, n, p) && Local(CellAt(s, n))
    ensures n in s.d.rows && (ParkedRow(s.d, n) <==> n !in s.d.stale && n !in s.m.sups)
  {
  }

  lemma RestoredWakeable(range: set<Addr>, d: Disk, stuck: Stuck, to: Node, n: Name, p: Proc)
    requires IsReconciled(range, d, stuck, to) && n in d.rows
    ensures Wakeable(to, n, p) <==> ParkedRow(d, n) && HasWholeOf(Get(d.parked, n), p)
  {
    assert Restored(d, n, to.m.vms[n]);
    if ParkedRow(d, n) { OwnedLeft(d, stuck, n); }
  }

  lemma RestartHarms(s: Node, st: Step, n: Name, p: Proc)
    requires Wakeable(s, n, p) && Inv(s) && Can(s, st) && st.Restart?
    ensures Wakeable(Do(s, st), n, p) <==> !Harms(s, st, n, n in s.d.stale)
  {
    assert Local(CellAt(s, n));
    WakeableRow(s, n, p);
    var d := AfterCrash(s);
    assert ParkedRow(d, n) <==> ParkedRow(s.d, n);
    RepairsKeepRecords(d, st.repairs, n);
    RestoredWakeable(s.range, RepairedAll(d, st.repairs), st.stuck, st.to, n, p);
    if n in s.d.parked { WholeIsOf(s.d.parked[n], p, ViewAt(s, n).jail); }
  }

  lemma SharesNoAddress(s: Node, n: Name, n': Name)
    requires Exclusive(s.m.vms) && n != n' && n in s.m.vms && n' in s.m.vms && s.m.vms[n'].Holds()
    ensures s.m.vms[n].Holds() ==> s.m.vms[n].addr != s.m.vms[n'].addr
  {
  }

  lemma BuildHarms(s: Node, st: BuildStep, n: Name, p: Proc)
    requires Wakeable(s, n, p) && ViewShaped(ViewAt(s, n)) && Exclusive(s.m.vms) && CanBuild(s, st) && st != BuildOk(n)
    ensures Wakeable(DoBuild(s, st), n, p) <==> !Harms(s, Build(st), n, false)
  {
    if st.n == n {
      OwnBuildHarms(s, st, n, p);
    } else {
      SharesNoAddress(s, n, st.n);
      if s.m.vms[n].Holds() { HostElsewhere(s, st, s.m.vms[n].addr); }
      OtherBuildHarms(s, st, n);
    }
  }

  lemma SupHarms(s: Node, st: SupStep, n: Name, p: Proc)
    requires Wakeable(s, n, p) && ViewShaped(ViewAt(s, n)) && Exclusive(s.m.vms) && CanSup(s, st)
    ensures Wakeable(DoSup(s, st), n, p)
  {
    if SupName(st) == Some(n) {
      OwnSupHarms(s, st, n, p);
    } else {
      if st.SupGone? {
        SharesNoAddress(s, n, st.n);
        OtherGoneHarms(s, st.n, n);
      } else if st.ParkMove? {
        SharesNoAddress(s, n, st.n);
        OtherMoveHarms(s, st.n, st.f, n);
      } else if st.RecordEnd? {
        OtherEndHarms(s, st.n, st.ok, n);
      } else if TouchesDir(st) {
        OtherDirHarms(s, st, n);
      } else {
        OtherSupHarms(s, st, n);
      }
    }
  }

  /** A step that is not meant to use the snapshot up loses it if and only if it is one that harms it. */
  lemma LosesExactly(s: Node, st: Step, n: Name, p: Proc)
    requires Inv(s) && Can(s, st) && Wakeable(s, n, p) && !UsesUp(st, n)
    ensures Wakeable(Do(s, st), n, p) <==> !Harms(s, st, n, n in s.d.stale)
  {
    assert Shaped(CellAt(s, n)) by { assert Local(CellAt(s, n)); }
    ShapedView(s, n);
    match st
    case Api(st) => ApiHarms(s, st, n, p);
    case Build(st) => BuildHarms(s, st, n, p);
    case Task(st) => if TaskName(st) == Some(n) { OwnTaskHarms(s, st, n, p); } else { OtherTaskHarms(s, st, n); }
    case Super(st) => SupHarms(s, st, n, p);
    case Parking(st) => ParkHarms(s, st, n, p);
    case Edge(st) => EdgeHarms(s, st, n, p);
    case Restart(_, _, _) => RestartHarms(s, st, n, p);
  }

  ghost predicate StaysWakeable(ss: seq<Node>, i: nat, j: nat, n: Name, p: Proc)
    requires i <= j < |ss|
  {
    Wakeable(ss[j], n, p) && (i < j ==> StaysWakeable(ss, i, j - 1, n, p))
  }

  ghost predicate NothingHarms(ss: seq<Node>, sts: seq<Step>, i: nat, j: nat, n: Name)
    requires i <= j <= |sts| && |ss| == |sts| + 1
  {
    i < j ==> !Harms(ss[j - 1], sts[j - 1], n, LastRefused(sts, j - 1, n)) && NothingHarms(ss, sts, i, j - 1, n)
  }

  /** Step `k` leaves a snapshot that was whole exactly when it does not harm it. */
  ghost predicate StepAt(ss: seq<Node>, sts: seq<Step>, k: nat, n: Name, p: Proc)
    requires k < |sts| && |ss| == |sts| + 1
  {
    Wakeable(ss[k], n, p) ==> (Wakeable(ss[k + 1], n, p) <==> !Harms(ss[k], sts[k], n, LastRefused(sts, k, n)))
  }

  lemma SnapshotStep(ss: seq<Node>, sts: seq<Step>, k: nat, n: Name, p: Proc)
    requires IsRun(ss, sts) && k < |sts| && !UsesUp(sts[k], n)
    ensures StepAt(ss, sts, k, n, p)
  {
    if Wakeable(ss[k], n, p) {
      EveryStateSound(ss, sts, k);
      StaleIs(ss, sts, k, n);
      LosesExactly(ss[k], sts[k], n, p);
    }
  }

  lemma {:induction false} KeptThrough(ss: seq<Node>, sts: seq<Step>, i: nat, j: nat, n: Name, p: Proc)
    requires |ss| == |sts| + 1 && i <= j < |ss| && Wakeable(ss[i], n, p)
    requires forall k | i <= k < j :: StepAt(ss, sts, k, n, p)
    ensures StaysWakeable(ss, i, j, n, p) <==> NothingHarms(ss, sts, i, j, n)
  {
    if i < j {
      KeptThrough(ss, sts, i, j - 1, n, p);
      assert StepAt(ss, sts, j - 1, n, p);
    }
  }

  /** Over any run, a snapshot that is neither woken nor removed stays whole, and its VM parked or being woken, if
      and only if no step harms it. */
  lemma SnapshotsKept(ss: seq<Node>, sts: seq<Step>, i: nat, j: nat, n: Name, p: Proc)
    requires IsRun(ss, sts) && i <= j < |ss| && Wakeable(ss[i], n, p)
    requires forall k | i <= k < j :: !UsesUp(sts[k], n)
    ensures StaysWakeable(ss, i, j, n, p) <==> NothingHarms(ss, sts, i, j, n)
  {
    forall k | i <= k < j ensures StepAt(ss, sts, k, n, p) { SnapshotStep(ss, sts, k, n, p); }
    KeptThrough(ss, sts, i, j, n, p);
  }

  /** Every park that is kept makes a VM that can be woken. */
  lemma KeptParkIsWakeable(s: Node, n: Name)
    requires CanSup(s, ParkOk(n))
    ensures Wakeable(DoSup(s, ParkOk(n)), n, s.d.HostAt(s.m.vms[n].addr).vmm.value)
  {
    assert VmState in s.d.DirAt(n);
  }

  // ------------------------------------------------------------ over a restart --

  /** The VM is parked, or a wake of it has not brought it up. */
  predicate ParkedOrWaking(s: Node, n: Name) {
    n in s.m.vms &&
    (s.m.vms[n].Parked() ||
     (n in s.m.jobs && s.m.jobs[n].kind.FromSnapshot? &&
      (s.m.jobs[n].pc in {Entering, Building, PuttingBack, Unwinding, Failed} || s.m.jobs[n].pc.PuttingBackCwd?)))
  }

  lemma ParkedOnRecord(s: Node, n: Name)
    requires Local(CellAt(s, n)) && ParkedOrWaking(s, n)
    ensures n in s.d.rows && (ParkedRow(s.d, n) <==> n !in s.d.stale)
  {
  }

  lemma RestoredParked(range: set<Addr>, d: Disk, stuck: Stuck, to: Node, n: Name)
    requires IsReconciled(range, d, stuck, to) && n in d.rows
    ensures n in to.m.vms && (to.m.vms[n].Parked() <==> ParkedRow(d, n))
    ensures ParkedRow(d, n) ==> Get(to.d.parked, n) == Get(d.parked, n)
  {
    assert Restored(d, n, to.m.vms[n]);
    if ParkedRow(d, n) { OwnedLeft(d, stuck, n); }
  }

  lemma RestartOfParked(s: Node, st: Step, n: Name)
    requires Inv(s) && Can(s, st) && st.Restart? && ParkedOrWaking(s, n)
    ensures var to := Do(s, st);
            && n in to.m.vms && (to.m.vms[n].Parked() <==> n !in s.d.stale)
            && (n !in s.d.stale ==> Get(to.d.parked, n) == Get(s.d.parked, n))
  {
    assert Local(CellAt(s, n));
    ParkedOnRecord(s, n);
    var d := AfterCrash(s);
    assert ParkedRow(d, n) <==> ParkedRow(s.d, n);
    RepairsKeepRecords(d, st.repairs, n);
    RestoredParked(s.range, RepairedAll(d, st.repairs), st.stuck, st.to, n);
  }

  /** A restart finds a VM parked, or in mid-wake, and leaves it parked, with just the files it has in its parked
      directory, if and only if the database did not refuse when it was last asked to record the VM's end. */
  lemma StaysParkedExactly(ss: seq<Node>, sts: seq<Step>, k: nat, n: Name)
    requires IsRun(ss, sts) && k < |sts| && sts[k].Restart? && ParkedOrWaking(ss[k], n)
    ensures n in ss[k + 1].m.vms && (ss[k + 1].m.vms[n].Parked() <==> !LastRefused(sts, k, n))
    ensures !LastRefused(sts, k, n) ==> Get(ss[k + 1].d.parked, n) == Get(ss[k].d.parked, n)
  {
    EveryStateSound(ss, sts, k);
    StaleIs(ss, sts, k, n);
    RestartOfParked(ss[k], sts[k], n);
  }
}
