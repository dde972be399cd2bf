/** A start or wake comes to its end: every step of its own brings it nearer, and nobody else's step delays it. */
module JobProgress {
  import opened Common
  import opened Registry
  import opened RegistryInvariant
  import opened RegistryRuns
  import opened NodeTheorems

  function One(b: bool): nat { if b then 1 else 0 }

  function CountObjs(objs: set<Obj>): nat {
    One(Netns in objs) + One(JailDir in objs) + One(Cgroup in objs) + One(Veth in objs)
  }

  function CountFiles(files: set<SnapFile>): nat { One(VmState in files) + One(Memory in files) + One(Rootfs in files) }

  /** What a start or wake has left to do, at most: the objects still to make, the files still to move, the objects
      to undo, and the calls to come after those. */
  function Rank(job: Job, host: Host, lives: bool, hasLog: bool, dir: Dir): nat {
    match job.pc
    case Entering => 120
    case Building =>
      100 + (4 - CountObjs(host.objs)) + One(host.vmm.None?) + One(!hasLog) + CountFiles(dir.Keys) +
      One(job.kind.Fresh? && !HasRootfs(host))
    case PuttingBack => 60 + CountFiles(host.jail.Keys)
    case PuttingBackCwd(left) => 60 + CountFiles(left)
    case Unwinding => 40 + CountObjs(host.objs) + CountFiles(host.jail.Keys) + One(lives)
    case Built(_) => 60
    case Recorded(_) => 50
    case Tidied(_) => 40
    case Unrecorded => 40 + CountObjs(host.objs) + CountFiles(host.jail.Keys) + One(lives)
    case Destroyed => 5
    case Marked => 3
    case Failed => 3
  }

  predicate HasJob(s: Node, n: Name) { n in s.m.jobs && n in s.m.vms && s.m.vms[n].Starting? }

  function JobRank(s: Node, n: Name): nat
    requires HasJob(s, n)
  {
    var e := s.m.vms[n];
    Rank(s.m.jobs[n], s.d.HostAt(e.addr), s.d.Lives(e.addr), e.log in s.d.logs, s.d.DirAt(n))
  }

  /** The start or wake of `n` is over in `s'`, or nearer its end than in `s`. */
  predicate Nearer(s: Node, s': Node, n: Name)
    requires HasJob(s, n)
  {
    n in s'.m.jobs ==> HasJob(s', n) && JobRank(s', n) < JobRank(s, n)
  }

  predicate NoFurther(s: Node, s': Node, n: Name)
    requires HasJob(s, n)
  {
    HasJob(s', n) && JobRank(s', n) <= JobRank(s, n)
  }

  lemma SameCell(s: Node, s': Node, n: Name)
    requires HasJob(s, n) && CellAt(s', n) == CellAt(s, n)
    ensures NoFurther(s, s', n)
  {
    assert CellAt(s', n).at == CellAt(s, n).at;
    assert CellAt(s, n).DirOr() == s.d.DirAt(n) && CellAt(s', n).DirOr() == s'.d.DirAt(n);
  }

  /** The step is the start's or wake's of `n`: of its task, of its build or its teardown, or the end of the VMM that
      its teardown has killed. */
  predicate JobStep(s: Node, st: Step, n: Name) {
    match st
    case Build(st) => st.n == n
    case Task(st) => TaskName(st) == Some(n)
    case Super(VmmDies(p)) =>
      (JobAt(s, n, Unwinding) || JobAt(s, n, Unrecorded)) && s.d.HostAt(s.m.vms[n].addr).vmm == Some(p)
    case _ => false
  }

  lemma MakeObjAdvances(s: Node, n: Name, o: Obj)
    requires CanBuild(s, MakeObj(n, o))
    ensures HasJob(s, n) && Nearer(s, DoBuild(s, MakeObj(n, o)), n)
  {
    match o case Netns => case JailDir => case Cgroup => case Veth =>
  }

  lemma MakeAdvances(s: Node, st: BuildStep)
    requires CanBuild(s, st) && (st.MakeLog? || st.SpawnVmm? || st.WriteRootfs?)
    ensures HasJob(s, st.n) && Nearer(s, DoBuild(s, st), st.n)
  {
  }

  lemma FewerFiles(dir: Dir, f: SnapFile)
    requires f in dir
    ensures CountFiles((dir - {f}).Keys) < CountFiles(dir.Keys)
  {
    match f case VmState => case Memory => case Rootfs =>
  }

  lemma FewerLeft(jail: Dir, left: Dir)
    requires left.Items < jail.Items
    ensures CountFiles(left.Keys) < CountFiles(jail.Keys)
  {
    forall f | f in left ensures f in jail && left[f] == jail[f] { assert (f, left[f]) in left.Items; }
    assert left.Keys <= jail.Keys;
    assert exists f :: f in jail && f !in left by {
      var file :| file in jail.Items && file !in left.Items;
      assert file.0 in jail && jail[file.0] == file.1;
      assert file.0 !in left;
    }
    var f :| f in jail && f !in left;
    match f case VmState => case Memory => case Rootfs =>
  }

  lemma CwdAdvances(s: Node, n: Name, f: SnapFile, found: Content)
    requires CanBuild(s, TakeCwd(n, f, found))
    ensures HasJob(s, n) && Nearer(s, DoBuild(s, TakeCwd(n, f, found)), n)
  {
    match f case VmState => case Memory => case Rootfs =>
  }

  lemma UndoPartAdvances(s: Node, n: Name, left: Dir)
    requires CanBuild(s, UndoPart(n, left)) && HasJob(s, n)
    ensures Nearer(s, DoBuild(s, UndoPart(n, left)), n)
  {
    FewerLeft(s.d.HostAt(s.m.vms[n].addr).jail, left);
  }

  lemma MoveInAdvances(s: Node, n: Name, f: SnapFile)
    requires CanBuild(s, MoveIn(n, f))
    ensures HasJob(s, n) && Nearer(s, DoBuild(s, MoveIn(n, f)), n)
  {
    FewerFiles(s.d.parked[n], f);
    assert DoBuild(s, MoveIn(n, f)).d.DirAt(n) == s.d.parked[n] - {f};
  }

  lemma MoveBackAdvances(s: Node, n: Name, f: SnapFile)
    requires CanBuild(s, MoveBack(n, f))
    ensures HasJob(s, n) && Nearer(s, DoBuild(s, MoveBack(n, f)), n)
  {
    FewerFiles(s.d.HostAt(s.m.vms[n].addr).jail, f);
  }

  lemma UndoAdvances(s: Node, n: Name, o: Obj)
    requires CanBuild(s, Undo(n, o)) && HasJob(s, n)
    ensures Nearer(s, DoBuild(s, Undo(n, o)), n)
  {
    match o case Netns => case JailDir => case Cgroup => case Veth =>
  }

  lemma EnterAdvances(s: Node, st: BuildStep)
    requires CanBuild(s, st) && (st.Enter? || st.EnterErr?)
    ensures HasJob(s, st.n) && Nearer(s, DoBuild(s, st), st.n)
  {
  }

  lemma BuiltAdvances(s: Node, st: BuildStep)
    requires CanBuild(s, st) && (st.BuildOk? || st.BuildErr?)
    ensures HasJob(s, st.n) && Nearer(s, DoBuild(s, st), st.n)
  {
  }

  lemma UnwoundAdvances(s: Node, n: Name)
    requires CanBuild(s, UnwindDone(n))
    ensures HasJob(s, n) && Nearer(s, DoBuild(s, UnwindDone(n)), n)
  {
    var s' := DoBuild(s, UnwindDone(n));
    assert s'.m.jobs[n].pc in {Failed, Destroyed} && s'.m.vms == s.m.vms;
    assert JobRank(s', n) <= 5;
  }

  lemma PutBackAdvances(s: Node, n: Name)
    requires CanBuild(s, PutBackDone(n))
    ensures HasJob(s, n) && Nearer(s, DoBuild(s, PutBackDone(n)), n)
  {
    var s' := DoBuild(s, PutBackDone(n));
    assert s'.m.jobs[n].pc == Unwinding && s'.m.vms == s.m.vms;
    assert JobRank(s', n) < 60;
  }

  lemma BuildAdvances(s: Node, st: BuildStep)
    requires CanBuild(s, st) && HasJob(s, st.n)
    ensures Nearer(s, DoBuild(s, st), st.n)
  {
    match st
    case MakeObj(n, o) => MakeObjAdvances(s, n, o);
    case MakeLog(_) => MakeAdvances(s, st);
    case SpawnVmm(_) => MakeAdvances(s, st);
    case WriteRootfs(_) => MakeAdvances(s, st);
    case MoveIn(n, f) => MoveInAdvances(s, n, f);
    case MoveBack(n, f) => MoveBackAdvances(s, n, f);
    case TakeCwd(n, f, found) => CwdAdvances(s, n, f, found);
    case Undo(n, o) => UndoAdvances(s, n, o);
    case UndoPart(n, left) => UndoPartAdvances(s, n, left);
    case Enter(_) => EnterAdvances(s, st);
    case EnterErr(_, _) => EnterAdvances(s, st);
    case BuildOk(_) => BuiltAdvances(s, st);
    case BuildErr(_) => BuiltAdvances(s, st);
    case PutBackDone(n) => PutBackAdvances(s, n);
    case UnwindDone(n) => UnwoundAdvances(s, n);
  }

  lemma SettleAdvances(s: Node, st: TaskStep, n: Name)
    requires CanTask(s, st) && TaskName(st) == Some(n) && !st.Insert? && !st.MarkForced? && !st.Tidy?
    ensures HasJob(s, n) && n !in DoTask(s, st).m.jobs
  {
  }

  lemma StoreAdvances(s: Node, st: TaskStep, n: Name)
    requires CanTask(s, st) && TaskName(st) == Some(n) && (st.Insert? || st.MarkForced? || st.Tidy?)
    ensures HasJob(s, n) && Nearer(s, DoTask(s, st), n)
  {
  }

  lemma TaskAdvances(s: Node, st: TaskStep, n: Name)
    requires CanTask(s, st) && TaskName(st) == Some(n)
    ensures HasJob(s, n) && Nearer(s, DoTask(s, st), n)
  {
    if st.Insert? || st.MarkForced? || st.Tidy? { StoreAdvances(s, st, n); } else { SettleAdvances(s, st, n); }
  }

  lemma DeathAdvances(s: Node, n: Name, p: Proc)
    requires CanSup(s, VmmDies(p)) && HasJob(s, n)
    ensures NoFurther(s, DoSup(s, VmmDies(p)), n)
    ensures JobStep(s, Super(VmmDies(p)), n) ==> Nearer(s, DoSup(s, VmmDies(p)), n)
  {
  }

  /** Each step of a start or wake ends it, or brings it nearer its end. */
  lemma JobAdvances(s: Node, st: Step, n: Name)
    requires HasJob(s, n) && Can(s, st) && JobStep(s, st, n)
    ensures Nearer(s, Do(s, st), n)
  {
    match st
    case Build(st) => BuildAdvances(s, st);
    case Task(st) => TaskAdvances(s, st, n);
    case Super(VmmDies(p)) => DeathAdvances(s, n, p);
  }

  // ------------------------------------------------------- everyone else --

  lemma ApiElsewhere(s: Node, st: ApiStep, n: Name)
    requires Inv(s) && HasJob(s, n) && CanApi(s, st)
    ensures NoFurther(s, DoApi(s, st), n)
  {
    match st {
      case ReserveStart(n', route, a) => ReserveStartOthers(s, n', route, a, n);
      case ReserveWake(n', a) => ReserveWakeOthers(s, n', a, n);
      case Remove(n') =>
        assert Local(CellAt(s, n));
        assert UsesLog(s.m, n', s.m.vms[n'].rec.log);
        RemoveOthers(s, n', n);
      case RemoveFails(n', left) => RemoveFailsOthers(s, n', left, n);
      case _ => AppsAndClaimsCell(s, st, n);
    }
    SameCell(s, DoApi(s, st), n);
  }

  lemma MakesElsewhere(s: Node, st: BuildStep, n: Name)
    requires Inv(s) && CanBuild(s, st) && st.n != n && (st.MakeLog? || st.SpawnVmm? || st.UnwindDone?)
    ensures HasJob(s, n) ==> CellAt(DoBuild(s, st), n) == CellAt(s, n)
  {
    if HasJob(s, n) {
      match st
      case MakeLog(n') =>
        assert Shaped(CellAt(s, n)) by { assert Local(CellAt(s, n)); }
        assert UsesLog(s.m, n', s.m.vms[n'].log);
        MakeLogOthers(s, n', n);
      case SpawnVmm(n') => SpawnVmmOthers(s, n', n);
      case UnwindDone(n') =>
        SweptElsewhere(s.d, s.m.vms[n'].addr, s.m.vms[n].addr);
        UnwindDoneOthers(s, n', n);
    }
  }

  lemma BuildElsewhere(s: Node, st: BuildStep, n: Name)
    requires Inv(s) && HasJob(s, n) && CanBuild(s, st) && st.n != n
    ensures NoFurther(s, DoBuild(s, st), n)
  {
    match st {
      case Enter(n') => EnterOthers(s, n', n);
      case EnterErr(n', made) => EnterErrOthers(s, n', made, n);
      case MakeObj(n', o) => MakeObjOthers(s, n', o, n);
      case WriteRootfs(n') => WriteRootfsOthers(s, n', n);
      case MoveIn(n', f) => MoveInOthers(s, n', f, n);
      case BuildOk(n') => BuildOkOthers(s, n', n);
      case BuildErr(n') => BuildErrOthers(s, n', n);
      case MoveBack(n', f) => MoveBackOthers(s, n', f, n);
      case TakeCwd(n', f, found) => TakeCwdOthers(s, n', f, found, n);
      case PutBackDone(n') => PutBackDoneOthers(s, n', n);
      case Undo(n', o) => UndoOthers(s, n', o, n);
      case UndoPart(n', left) => UndoPartOthers(s, n', left, n);
      case _ => MakesElsewhere(s, st, n);
    }
    SameCell(s, DoBuild(s, st), n);
  }

  lemma TaskElsewhere(s: Node, st: TaskStep, n: Name)
    requires Inv(s) && HasJob(s, n) && CanTask(s, st) && TaskName(st) != Some(n)
    ensures NoFurther(s, DoTask(s, st), n)
  {
    match st {
      case Insert(n', ok) => InsertOthers(s, n', ok, n);
      case MarkForced(n', ok) => MarkForcedOthers(s, n', ok, n);
      case Forget(n') => ForgetOthers(s, n', n);
      case PutBackParked(n') => PutBackParkedOthers(s, n', n);
      case EndForced(n') => EndForcedOthers(s, n', n);
      case Tidy(n') =>
        assert Local(CellAt(s, n));
        var was := OldLog(Some(s.m.jobs[n']));
        assert was.Some? ==> UsesLog(s.m, n', was.value);
        TidyOthers(s, n', n);
      case Supervise(n') => SuperviseOthers(s, n', n);
      case DropLog(t) => OthersLogs(s, n, s.m.tails[t].value);
      case Notify(t) =>
    }
    SameCell(s, DoTask(s, st), n);
  }

  lemma SupElsewhere(s: Node, st: SupStep, n: Name)
    requires Inv(s) && HasJob(s, n) && CanSup(s, st) && !st.VmmDies?
    ensures NoFurther(s, DoSup(s, st), n)
  {
    var n' := st.n;
    assert Hosted(CellAt(s, n)) by { assert Local(CellAt(s, n)); }
    match st {
      case ParkBegin(_) => ParkBeginOthers(s, n', n);
      case ParkRefused(_) => assert CellAt(DoSup(s, st), n) == CellAt(s, n);
      case ParkResumed(_, left) => ParkResumedOthers(s, n', left, n);
      case ParkKill(_) => OthersSpared(s, n', n); ParkKillOthers(s, n', n);
      case ParkMove(_, f) => ParkMoveOthers(s, n', f, n);
      case ParkOk(_) => ParkOkOthers(s, n', n);
      case ParkLost(_, left) => OthersSpared(s, n', n); ParkLostOthers(s, n', left, n);
      case SupEnd(_, reason) => OthersSpared(s, n', n); SupEndOthers(s, n', reason, n);
      case SupGone(_) => SupGoneOthers(s, n', n);
      case RecordEnd(_, ok) => RecordEndOthers(s, n', ok, n);
    }
    SameCell(s, DoSup(s, st), n);
  }

  lemma ParkElsewhere(s: Node, st: ParkStep, n: Name)
    requires HasJob(s, n) && CanPark(s, st)
    ensures NoFurther(s, DoPark(s, st), n)
  {
  }

  /** Nobody else's step takes a start or wake further from its end. */
  lemma JobNotDelayed(s: Node, st: Step, n: Name)
    requires Inv(s) && HasJob(s, n) && Can(s, st) && !st.Restart? && !JobStep(s, st, n)
    ensures NoFurther(s, Do(s, st), n)
  {
    match st
    case Api(st) => ApiElsewhere(s, st, n);
    case Build(st) => BuildElsewhere(s, st, n);
    case Task(st) => TaskElsewhere(s, st, n);
    case Super(st) => if st.VmmDies? { DeathAdvances(s, n, st.p); } else { SupElsewhere(s, st, n); }
    case Parking(st) => ParkElsewhere(s, st, n);
    case Edge(st) => EdgeFrame(s, st);
  }

  /** A start or wake always has a step to take. */
  lemma JobGoesOn(s: Node, n: Name) returns (st: Step)
    requires Shaped(CellAt(s, n)) && HasJob(s, n)
    ensures Can(s, st) && JobStep(s, st, n)
  {
    var job := s.m.jobs[n];
    match job.pc
    case Entering => st := Build(EnterErr(n, false));
    case Building => st := Build(BuildErr(n));
    case PuttingBack => st := Build(PutBackDone(n));
    case PuttingBackCwd(_) => st := Build(PutBackDone(n));
    case Built(_) => st := Task(Insert(n, true));
    case Recorded(_) => st := Task(Tidy(n));
    case Tidied(_) => st := Task(Supervise(n));
    case Destroyed => st := if job.kind.Fresh? then Task(Forget(n)) else Task(MarkForced(n, true));
    case Marked => st := Task(EndForced(n));
    case Failed => st := if job.kind.Fresh? then Task(Forget(n)) else Task(PutBackParked(n));
    case _ =>
      st := if s.d.Lives(s.m.vms[n].addr) then Super(VmmDies(s.d.HostAt(s.m.vms[n].addr).vmm.value))
            else Build(UnwindDone(n));
  }
}
