/** A crash at any point, and the `reconcile` that follows it. */
module Recovery {
  import opened Common
  import opened Registry
  import opened RegistryInvariant
  import opened RegistryRuns

  /** What holds of the disk whenever an agent may find it. */
  ghost predicate DiskInv(range: set<Addr>, d: Disk) {
    && RowLogs(d) && Vmms(range, d)
    && d.rows.Keys !! d.apps.Keys
    && (forall n | ParkedRow(d, n) && n !in d.damaged :: HasWhole(Get(d.parked, n)))
  }

  ghost predicate RowLogs(d: Disk) {
    && (forall n | n in d.rows :: d.rows[n].LogOf() in d.logs)
    && (forall n1, n2 | n1 in d.rows && n2 in d.rows && d.rows[n1].LogOf() == d.rows[n2].LogOf() :: n1 == n2)
  }

  ghost predicate Vmms(range: set<Addr>, d: Disk) {
    && (forall a | a in d.host :: a in range)
    && (forall a | a in d.host && d.host[a].vmm.Some? :: VmmAt(d, a, d.host[a].vmm.value))
    && (forall p | p in d.alive :: p < d.nextProc && d.alive[p] in d.host && d.host[d.alive[p]].vmm == Some(p))
    && (forall n | n in d.rows && d.rows[n].RowRunning? :: d.rows[n].proc < d.nextProc)
    && (forall n | LiveRow(d, n) :: d.alive[d.rows[n].proc] == d.rows[n].addr)
    && (forall n1, n2 | LiveRow(d, n1) && LiveRow(d, n2) && d.rows[n1].proc == d.rows[n2].proc :: n1 == n2)
  }

  // ------------------------------------------------------------ the crash --

  lemma RowUsesLog(s: Node, n: Name)
    requires n in s.d.rows && Local(CellAt(s, n))
    ensures UsesLog(s.m, n, s.d.rows[n].LogOf()) && s.d.rows[n].LogOf() in s.d.logs
  {
    var c := CellAt(s, n);
    if !OnRecord(c) {
      assert Says(c.entry, c.job).Some?;
    }
  }

  lemma LiveRowHolds(s: Node, n: Name)
    requires LiveRow(s.d, n) && Local(CellAt(s, n)) && HostOwned(s.range, s.d, Held(s.m.vms))
    ensures n in s.m.vms && s.m.vms[n].Holds() && s.m.vms[n].addr == s.d.rows[n].addr
    ensures s.d.alive[s.d.rows[n].proc] == s.d.rows[n].addr
  {
    assert CellAt(s, n).rowLives;
  }

  lemma ParkedRowWhole(s: Node, n: Name)
    requires ParkedRow(s.d, n) && Local(CellAt(s, n)) && n !in AfterCrash(s).damaged
    ensures HasWhole(Get(s.d.parked, n))
  {
    var c := CellAt(s, n);
    assert !OnRecord(c) && Says(c.entry, c.job).Some?;
    assert !c.stale;
    if c.job.Some? { assert !MidWake(s, n); }
  }

  /** Whatever the agent was doing, what a crash leaves is fit to be reconciled. */
  lemma CrashLeavesDiskInv(s: Node)
    requires Inv(s)
    ensures DiskInv(s.range, AfterCrash(s))
  {
    var d := AfterCrash(s);
    forall n | n in d.rows ensures UsesLog(s.m, n, d.rows[n].LogOf()) && d.rows[n].LogOf() in d.logs {
      assert Local(CellAt(s, n));
      RowUsesLog(s, n);
    }
    forall n | LiveRow(d, n)
      ensures n in s.m.vms && s.m.vms[n].Holds() && s.m.vms[n].addr == d.rows[n].addr
      ensures d.alive[d.rows[n].proc] == d.rows[n].addr
    {
      assert Local(CellAt(s, n));
      LiveRowHolds(s, n);
    }
    forall n | ParkedRow(d, n) && n !in d.damaged ensures HasWhole(Get(d.parked, n)) {
      assert Local(CellAt(s, n));
      ParkedRowWhole(s, n);
    }
  }

  // -------------------------------------------------------- the reconcile --

  lemma LiveAddrIs(d: Disk, n: Name)
    requires LiveRow(d, n)
    ensures d.rows[n].addr in LiveAddrs(d)
  {
  }

  /** The same records live: the same addresses do. */
  lemma SameLiveAddrs(d: Disk, d': Disk)
    requires forall n :: LiveRow(d', n) <==> LiveRow(d, n)
    requires forall n | LiveRow(d, n) :: n in d'.rows && d'.rows[n] == d.rows[n]
    ensures LiveAddrs(d') == LiveAddrs(d)
  {
    forall a ensures a in LiveAddrs(d') <==> a in LiveAddrs(d) {
      if a in LiveAddrs(d) {
        var n :| n in d.rows && LiveRow(d, n) && d.rows[n].addr == a;
        LiveAddrIs(d', n);
      }
      if a in LiveAddrs(d') {
        var n :| n in d'.rows && LiveRow(d', n) && d'.rows[n].addr == a;
        LiveAddrIs(d, n);
      }
    }
  }

  lemma MarkDeadKeepsVmms(range: set<Addr>, d: Disk, n: Name)
    requires Vmms(range, d) && DeadRow(d, n)
    ensures Vmms(range, Repaired(d, MarkDead(n)))
  {
    var d' := Repaired(d, MarkDead(n));
    forall n' | LiveRow(d', n') ensures LiveRow(d, n') && d'.rows[n'] == d.rows[n'] { }
  }

  lemma FewerVmmsKeepVmms(range: set<Addr>, d: Disk, dead: set<Proc>)
    requires Vmms(range, d)
    ensures Vmms(range, Without(d, dead))
  {
    var d' := Without(d, dead);
    forall n' | LiveRow(d', n') ensures LiveRow(d, n') { }
  }

  /** Losing host state no live VMM needs. */
  lemma LessHostKeepsVmms(range: set<Addr>, d: Disk, d': Disk)
    requires Vmms(range, d)
    requires d'.rows == d.rows && d'.alive == d.alive && d'.nextProc == d.nextProc
    requires forall a | a in d'.host :: a in d.host && d'.host[a].vmm == d.host[a].vmm
    requires forall p | p in d.alive :: d.alive[p] in d'.host
    ensures Vmms(range, d')
  {
    assert forall n :: LiveRow(d', n) <==> LiveRow(d, n);
  }

  lemma VmmNotAt(range: set<Addr>, d: Disk, a: Addr, p: Proc)
    requires Vmms(range, d) && !d.Lives(a) && p in d.alive
    ensures d.alive[p] != a && d.alive[p] in d.host
  {
  }

  lemma RemoveKeepsVmms(range: set<Addr>, d: Disk, a: Addr, objs: set<Obj>, files: set<SnapFile>)
    requires Vmms(range, d) && CanRepair(d, RemoveLeftover(a, objs, files))
    ensures Vmms(range, Repaired(d, RemoveLeftover(a, objs, files)))
  {
    forall p | p in d.alive ensures d.alive[p] != a && d.alive[p] in d.host { VmmNotAt(range, d, a, p); }
    LessHostKeepsVmms(range, d, Repaired(d, RemoveLeftover(a, objs, files)));
  }

  lemma RepairKeepsVmms(range: set<Addr>, d: Disk, r: Repair)
    requires Vmms(range, d) && CanRepair(d, r)
    ensures Vmms(range, Repaired(d, r))
  {
    match r
    case MarkDead(n) => MarkDeadKeepsVmms(range, d, n);
    case VmmEnds(p) => FewerVmmsKeepVmms(range, d, {p});
    case RemoveLeftover(a, objs, files) => RemoveKeepsVmms(range, d, a, objs, files);
    case _ => LessHostKeepsVmms(range, d, Repaired(d, r));
  }

  lemma RepairKeepsRowLogs(d: Disk, r: Repair)
    requires RowLogs(d) && CanRepair(d, r)
    ensures RowLogs(Repaired(d, r))
  {
    var d' := Repaired(d, r);
    forall n | n in d'.rows ensures n in d.rows && d'.rows[n].LogOf() == d.rows[n].LogOf() { }
    if r.DropUnrecordedLog? { assert forall n | n in d.rows :: d.rows[n].LogOf() != r.l; }
  }

  lemma RepairKeepsParked(d: Disk, r: Repair, n: Name)
    requires CanRepair(d, r)
    ensures ParkedRow(Repaired(d, r), n) <==> ParkedRow(d, n)
    ensures ParkedRow(d, n) ==> Get(Repaired(d, r).parked, n) == Get(d.parked, n)
  {
  }

  lemma RepairKeepsNames(d: Disk, r: Repair)
    requires CanRepair(d, r)
    ensures Repaired(d, r).rows.Keys == d.rows.Keys && Repaired(d, r).apps == d.apps && Repaired(d, r).damaged == d.damaged
    ensures forall n | n in d.rows :: Repaired(d, r).rows[n].RouteOf() == d.rows[n].RouteOf()
  {
  }

  /** An agent may die at any point of its `reconcile` too. */
  lemma RepairKeepsDiskInv(range: set<Addr>, d: Disk, r: Repair)
    requires DiskInv(range, d) && CanRepair(d, r)
    ensures DiskInv(range, Repaired(d, r))
  {
    RepairKeepsVmms(range, d, r);
    RepairKeepsRowLogs(d, r);
    RepairKeepsNames(d, r);
    forall n | ParkedRow(Repaired(d, r), n) && n !in d.damaged ensures HasWhole(Get(Repaired(d, r).parked, n)) {
      RepairKeepsParked(d, r, n);
    }
  }

  lemma {:induction false} RepairsKeepDiskInv(range: set<Addr>, d: Disk, rs: seq<Repair>)
    requires DiskInv(range, d) && CanRepairAll(d, rs)
    ensures DiskInv(range, RepairedAll(d, rs))
    decreases |rs|
  {
    if rs != [] {
      RepairKeepsDiskInv(range, d, rs[0]);
      RepairsKeepDiskInv(range, Repaired(d, rs[0]), rs[1..]);
    }
  }

  /** What any number of repairs leaves alone. */
  lemma {:induction false} RepairsKeepRecords(d: Disk, rs: seq<Repair>, n: Name)
    requires CanRepairAll(d, rs)
    ensures var e := RepairedAll(d, rs);
            && e.rows.Keys == d.rows.Keys && e.apps == d.apps && e.damaged == d.damaged
            && (ParkedRow(e, n) <==> ParkedRow(d, n))
            && (ParkedRow(d, n) ==> Get(e.parked, n) == Get(d.parked, n))
            && (n in d.rows ==> e.rows[n].RouteOf() == d.rows[n].RouteOf())
    decreases |rs|
  {
    if rs != [] {
      RepairKeepsParked(d, rs[0], n);
      RepairKeepsNames(d, rs[0]);
      RepairsKeepRecords(Repaired(d, rs[0]), rs[1..], n);
    }
  }

  // ----------------------------------------------------- in any order, and again --

  function Without(d: Disk, dead: set<Proc>): Disk { d.(alive := d.alive - dead) }

  /** What a repair removes is not what the `reconcile` that completes cannot remove. */
  predicate Agrees(d: Disk, r: Repair, stuck: Stuck) {
    match r
    case DropUnrecordedLog(l) => l !in stuck.logs
    case DropUnownedSnapshot(n, left) =>
      n in stuck.files ==> left.Some? && forall f | n in d.parked && f in d.parked[n] && f in stuck.files[n] :: f in left.value
    case RemoveLeftover(a, objs, files) => objs !! stuck.ObjsAt(a) && files !! stuck.JailAt(a)
    case _ => true
  }

  lemma RowsAlike(d: Disk, d': Disk)
    requires d'.rows.Keys == d.rows.Keys && forall n :: LiveRow(d', n) <==> LiveRow(d, n)
    requires forall n | n in d.rows ::
      d'.rows[n] == d.rows[n] || (DeadRow(d, n) && d'.rows[n] == d.rows[n].MarkedEnded(AgentDown))
    ensures ReconciledRows(d') == ReconciledRows(d)
  {
    forall n | n in d.rows ensures ReconciledRows(d')[n] == ReconciledRows(d)[n] {
      assert LiveRow(d', n) <==> LiveRow(d, n);
    }
  }

  lemma RecordedAlike(d: Disk, d': Disk)
    requires d'.rows.Keys == d.rows.Keys && forall n | n in d.rows :: d'.rows[n].LogOf() == d.rows[n].LogOf()
    ensures forall l :: RecordedLog(d', l) <==> RecordedLog(d, l)
  {
    forall l ensures RecordedLog(d', l) <==> RecordedLog(d, l) {
      if RecordedLog(d, l) {
        var n :| n in d.rows && d.rows[n].LogOf() == l;
        assert n in d'.rows && d'.rows[n].LogOf() == l;
      }
    }
  }

  lemma LogsAlike(d: Disk, d': Disk, stuck: Stuck)
    requires forall l :: RecordedLog(d', l) <==> RecordedLog(d, l)
    requires forall l | RecordedLog(d, l) || l in stuck.logs :: l in d'.logs <==> l in d.logs
    ensures ReconciledLogs(d', stuck) == ReconciledLogs(d, stuck)
  {
  }

  lemma DirsAlike(d: Disk, d': Disk, stuck: Stuck)
    requires d'.damaged == d.damaged && forall n :: ParkedRow(d', n) <==> ParkedRow(d, n)
    requires forall n | ParkedRow(d, n) || n in stuck.files :: n in d'.parked <==> n in d.parked
    requires forall n | ParkedRow(d, n) && n in d.parked :: d'.parked[n] == d.parked[n]
    requires forall n | !ParkedRow(d, n) && n in stuck.files && n in d.parked ::
      LeftOf(d'.parked[n], stuck.files[n]) == LeftOf(d.parked[n], stuck.files[n])
    ensures ReconciledDirs(d', stuck) == ReconciledDirs(d, stuck)
    ensures ReconciledDamage(d', stuck) == ReconciledDamage(d, stuck)
  {
  }

  lemma HostAlike(d: Disk, d': Disk, stuck: Stuck)
    requires LiveAddrs(d') == LiveAddrs(d)
    requires forall a | a in LiveAddrs(d) :: (a in d'.host <==> a in d.host) && (a in d.host ==> d'.host[a] == d.host[a])
    requires forall a | a !in LiveAddrs(d) ::
      stuck.LeftAt(d'.HostAt(a), a) == stuck.LeftAt(d.HostAt(a), a)
    ensures ReconciledHost(d', stuck) == ReconciledHost(d, stuck)
    ensures ReconciledLeaks(d', stuck) == ReconciledLeaks(d, stuck)
  {
  }

  lemma RemoveAlike(d: Disk, a: Addr, objs: set<Obj>, files: set<SnapFile>, stuck: Stuck, a': Addr)
    requires CanRepair(d, RemoveLeftover(a, objs, files)) && objs !! stuck.ObjsAt(a) && files !! stuck.JailAt(a)
    ensures stuck.LeftAt(Repaired(d, RemoveLeftover(a, objs, files)).HostAt(a'), a') == stuck.LeftAt(d.HostAt(a'), a')
  {
    if a' == a {
      var h, kept := d.host[a], stuck.ObjsAt(a);
      assert (h.objs - objs) * kept == h.objs * kept;
      assert LeftOf(h.jail - files, stuck.JailAt(a)) == LeftOf(h.jail, stuck.JailAt(a));
      if h.objs <= objs { assert h.objs * kept == {}; }
    }
  }

  lemma RepairHostAlike(d: Disk, r: Repair, stuck: Stuck)
    requires CanRepair(d, r) && !r.VmmEnds? && Agrees(d, r, stuck) && LiveAddrs(Repaired(d, r)) == LiveAddrs(d)
    ensures ReconciledHost(Repaired(d, r), stuck) == ReconciledHost(d, stuck)
    ensures ReconciledLeaks(Repaired(d, r), stuck) == ReconciledLeaks(d, stuck)
  {
    var d' := Repaired(d, r);
    forall a | a !in LiveAddrs(d) ensures stuck.LeftAt(d'.HostAt(a), a) == stuck.LeftAt(d.HostAt(a), a) {
      if r.RemoveLeftover? { RemoveAlike(d, r.a, r.objs, r.files, stuck, a); }
    }
    HostAlike(d, d', stuck);
  }

  lemma DropAlike(dir: Dir, left: Dir, files: set<SnapFile>)
    requires left.Items <= dir.Items && forall f | f in dir && f in files :: f in left
    ensures LeftOf(left, files) == LeftOf(dir, files)
  {
    forall f | f in left ensures f in dir && left[f] == dir[f] { assert (f, left[f]) in left.Items; }
  }

  lemma DropDirsAlike(d: Disk, n: Name, left: Option<Dir>, stuck: Stuck)
    requires n in d.parked && !ParkedRow(d, n) && Leaves(d.parked[n], left)
    requires Agrees(d, DropUnownedSnapshot(n, left), stuck)
    ensures ReconciledDirs(WithDir(d, n, left), stuck) == ReconciledDirs(d, stuck)
    ensures ReconciledDamage(WithDir(d, n, left), stuck) == ReconciledDamage(d, stuck)
  {
    if n in stuck.files { DropAlike(d.parked[n], left.value, stuck.files[n]); }
    DirsAlike(d, WithDir(d, n, left), stuck);
  }

  lemma RepairDirsAlike(d: Disk, r: Repair, stuck: Stuck)
    requires CanRepair(d, r) && !r.VmmEnds? && Agrees(d, r, stuck)
    requires forall n :: ParkedRow(Repaired(d, r), n) <==> ParkedRow(d, n)
    ensures ReconciledDirs(Repaired(d, r), stuck) == ReconciledDirs(d, stuck)
    ensures ReconciledDamage(Repaired(d, r), stuck) == ReconciledDamage(d, stuck)
  {
    if r.DropUnownedSnapshot? {
      DropDirsAlike(d, r.n, r.left, stuck);
    } else {
      var d' := Repaired(d, r);
      assert d'.parked == d.parked && d'.damaged == d.damaged;
      DirsAlike(d, d', stuck);
    }
  }

  lemma RepairLiveAlike(d: Disk, r: Repair)
    requires CanRepair(d, r) && !r.VmmEnds?
    ensures LiveAddrs(Repaired(d, r)) == LiveAddrs(d) && ReconciledRows(Repaired(d, r)) == ReconciledRows(d)
    ensures Repaired(d, r).alive == d.alive
  {
    var d' := Repaired(d, r);
    forall n ensures LiveRow(d', n) <==> LiveRow(d, n) { }
    SameLiveAddrs(d, d');
    RowsAlike(d, d');
  }

  lemma RepairLogsAlike(d: Disk, r: Repair, stuck: Stuck)
    requires CanRepair(d, r) && !r.VmmEnds? && Agrees(d, r, stuck)
    ensures ReconciledLogs(Repaired(d, r), stuck) == ReconciledLogs(d, stuck)
  {
    RecordedAlike(d, Repaired(d, r));
    LogsAlike(d, Repaired(d, r), stuck);
  }

  /** Any action but a VMM's end leaves what `reconcile` makes of the disk as it was. */
  lemma RepairConfluent(d: Disk, r: Repair, stuck: Stuck)
    requires CanRepair(d, r) && !r.VmmEnds? && Agrees(d, r, stuck)
    ensures ReconciledDisk(Repaired(d, r), stuck) == ReconciledDisk(d, stuck)
  {
    RepairLiveAlike(d, r);
    RepairLogsAlike(d, r, stuck);
    RepairHostAlike(d, r, stuck);
    forall n ensures ParkedRow(Repaired(d, r), n) <==> ParkedRow(d, n) { RepairKeepsParked(d, r, n); }
    RepairDirsAlike(d, r, stuck);
    RepairKeepsNames(d, r);
  }

  ghost predicate AllAgree(d: Disk, rs: seq<Repair>, stuck: Stuck)
    requires CanRepairAll(d, rs)
    decreases |rs|
  {
    rs == [] || (Agrees(d, rs[0], stuck) && AllAgree(Repaired(d, rs[0]), rs[1..], stuck))
  }

  function DeathOf(r: Repair): set<Proc> { if r.VmmEnds? then {r.p} else {} }

  function Deaths(rs: seq<Repair>): set<Proc> { if rs == [] then {} else DeathOf(rs[0]) + Deaths(rs[1..]) }

  /** A repair and the VMMs' ends come to the same in either order. */
  lemma RepairCommutes(d: Disk, r: Repair, dead: set<Proc>)
    requires CanRepair(d, r) && !r.VmmEnds?
    ensures CanRepair(Without(d, dead), r)
    ensures Repaired(Without(d, dead), r) == Without(Repaired(d, r), dead)
  {
    var e := Without(d, dead);
    forall n | LiveRow(e, n) ensures LiveRow(d, n) && e.rows[n] == d.rows[n] { }
    forall a | a in LiveAddrs(e) ensures a in LiveAddrs(d) {
      var n :| n in e.rows && LiveRow(e, n) && e.rows[n].addr == a;
      LiveAddrIs(d, n);
    }
  }

  lemma OneRepair(d: Disk, r: Repair, dead: set<Proc>, stuck: Stuck)
    requires CanRepair(d, r) && Agrees(d, r, stuck)
    ensures ReconciledDisk(Without(Repaired(d, r), dead), stuck) == ReconciledDisk(Without(d, DeathOf(r) + dead), stuck)
  {
    if r.VmmEnds? {
      assert Without(Repaired(d, r), dead) == Without(d, DeathOf(r) + dead);
    } else {
      assert DeathOf(r) + dead == dead;
      RepairCommutes(d, r, dead);
      RepairConfluent(Without(d, dead), r, stuck);
    }
  }

  /** A `reconcile` cut short after any of its actions, any number of times, and with any VMMs ending
      meanwhile, ends where a whole one does of the VMMs that are left. */
  lemma {:induction false} RepairsAddUp(d: Disk, rs: seq<Repair>, stuck: Stuck)
    requires CanRepairAll(d, rs) && AllAgree(d, rs, stuck)
    ensures ReconciledDisk(RepairedAll(d, rs), stuck) == ReconciledDisk(Without(d, Deaths(rs)), stuck)
    decreases |rs|
  {
    if rs == [] {
      assert Without(d, {}) == d;
    } else {
      calc {
        ReconciledDisk(RepairedAll(d, rs), stuck);
        { RepairsAddUp(Repaired(d, rs[0]), rs[1..], stuck); }
        ReconciledDisk(Without(Repaired(d, rs[0]), Deaths(rs[1..])), stuck);
        { OneRepair(d, rs[0], Deaths(rs[1..]), stuck); }
        ReconciledDisk(Without(d, Deaths(rs)), stuck);
      }
    }
  }

  lemma DeathLeavesFiles(d: Disk, p: Proc, stuck: Stuck)
    ensures var d' := Without(d, {p});
            && ReconciledLogs(d', stuck) == ReconciledLogs(d, stuck)
            && ReconciledDirs(d', stuck) == ReconciledDirs(d, stuck)
            && ReconciledDamage(d', stuck) == ReconciledDamage(d, stuck)
  {
    RecordedAlike(d, Without(d, {p}));
  }

  lemma DeathLeavesHost(d: Disk, p: Proc, stuck: Stuck)
    requires LiveAddrs(Without(d, {p})) == LiveAddrs(d) && (p in d.alive ==> d.alive[p] !in LiveAddrs(d))
    ensures var d' := Without(d, {p});
            && ReconciledHost(d', stuck) == ReconciledHost(d, stuck)
            && ReconciledLeaks(d', stuck) == ReconciledLeaks(d, stuck)
            && ReconciledVmms(d') == ReconciledVmms(d)
  {
  }

  /** The end of a VMM that no record owns changes nothing. */
  lemma UnrecordedDeath(range: set<Addr>, d: Disk, p: Proc, stuck: Stuck)
    requires DiskInv(range, d) && p in d.alive && d.alive[p] !in LiveAddrs(d)
    ensures ReconciledDisk(Without(d, {p}), stuck) == ReconciledDisk(d, stuck)
  {
    var d' := Without(d, {p});
    forall n ensures LiveRow(d', n) <==> LiveRow(d, n) {
      if LiveRow(d, n) { LiveAddrIs(d, n); }
    }
    SameLiveAddrs(d, d');
    RowsAlike(d, d');
    DeathLeavesHost(d, p, stuck);
    DeathLeavesFiles(d, p, stuck);
  }

  lemma LiveWithout(range: set<Addr>, d: Disk, n: Name, n': Name)
    requires Vmms(range, d) && LiveRow(d, n)
    ensures LiveRow(Without(d, {d.rows[n].proc}), n') <==> LiveRow(d, n') && n' != n
  {
  }

  lemma LiveApart(range: set<Addr>, d: Disk, n: Name, n': Name)
    requires Vmms(range, d) && LiveRow(d, n) && LiveRow(d, n') && n' != n
    ensures d.rows[n'].addr != d.rows[n].addr
  {
  }

  lemma LiveAddrsWithout(range: set<Addr>, d: Disk, n: Name)
    requires Vmms(range, d) && LiveRow(d, n)
    ensures LiveAddrs(Without(d, {d.rows[n].proc})) == LiveAddrs(d) - {d.rows[n].addr}
  {
    var d' := Without(d, {d.rows[n].proc});
    forall n' ensures LiveRow(d', n') <==> LiveRow(d, n') && n' != n { LiveWithout(range, d, n, n'); }
    forall a ensures a in LiveAddrs(d') <==> a in LiveAddrs(d) && a != d.rows[n].addr {
      if a in LiveAddrs(d) && a != d.rows[n].addr {
        var n' :| n' in d.rows && LiveRow(d, n') && d.rows[n'].addr == a;
        LiveAddrIs(d', n');
      }
      if a in LiveAddrs(d') {
        var n' :| n' in d'.rows && LiveRow(d', n') && d'.rows[n'].addr == a;
        LiveAddrIs(d, n');
        LiveApart(range, d, n, n');
      }
    }
  }

  lemma RecordedDeathRows(range: set<Addr>, d: Disk, n: Name)
    requires Vmms(range, d) && LiveRow(d, n)
    ensures ReconciledRows(Without(d, {d.rows[n].proc})) == ReconciledRows(d)[n := d.rows[n].MarkedEnded(AgentDown)]
  {
    var d' := Without(d, {d.rows[n].proc});
    forall n' | n' in d.rows && n' != n && d.rows[n'].RowRunning?
      ensures d.rows[n'].proc in d'.alive <==> d.rows[n'].proc in d.alive
    {
      LiveWithout(range, d, n, n');
    }
  }

  lemma RecordedDeathVmms(range: set<Addr>, d: Disk, n: Name)
    requires Vmms(range, d) && LiveRow(d, n)
    ensures ReconciledVmms(Without(d, {d.rows[n].proc})) == ReconciledVmms(d) - {d.rows[n].proc}
  {
    LiveAddrsWithout(range, d, n);
    forall p | p in d.alive && d.alive[p] == d.rows[n].addr ensures p == d.rows[n].proc {
      assert d.host[d.alive[p]].vmm == Some(p);
    }
  }

  lemma RecordedDeathHost(range: set<Addr>, d: Disk, n: Name, stuck: Stuck)
    requires Vmms(range, d) && LiveRow(d, n)
    ensures var a, d' := d.rows[n].addr, Without(d, {d.rows[n].proc});
            && ReconciledHost(d', stuck) - {a} == ReconciledHost(d, stuck) - {a}
            && ReconciledLeaks(d', stuck) - {a} == ReconciledLeaks(d, stuck) - {a}
            && (a in ReconciledHost(d', stuck) <==> stuck.LeftAt(d.HostAt(a), a).objs != {})
            && (a in ReconciledHost(d', stuck) ==> ReconciledHost(d', stuck)[a] == stuck.LeftAt(d.HostAt(a), a))
  {
    LiveAddrsWithout(range, d, n);
  }

  /** The end of a recorded VM's VMM makes that record's VM an Ended one and has its address cleaned up, and
      changes nothing else. */
  lemma RecordedDeath(range: set<Addr>, d: Disk, n: Name, stuck: Stuck)
    requires DiskInv(range, d) && LiveRow(d, n)
    ensures var a, p := d.rows[n].addr, d.rows[n].proc;
            var e, e' := ReconciledDisk(d, stuck), ReconciledDisk(Without(d, {p}), stuck);
            && e'.rows == e.rows[n := d.rows[n].MarkedEnded(AgentDown)]
            && e'.alive == e.alive - {p}
            && e'.host - {a} == e.host - {a} && e'.leaked - {a} == e.leaked - {a}
            && e'.HostAt(a).vmm.None? && e'.HostAt(a).objs == d.HostAt(a).objs * stuck.ObjsAt(a)
            && e'.logs == e.logs && e'.parked == e.parked && e'.damaged == e.damaged
  {
    RecordedDeathRows(range, d, n);
    RecordedDeathVmms(range, d, n);
    RecordedDeathHost(range, d, n, stuck);
    DeathLeavesFiles(d, d.rows[n].proc, stuck);
  }

  // ------------------------------------------------- what it ends up with --

  /** The VMs taken back keep their VMMs and their host state, and nothing else is taken back. */
  lemma ReconciledLive(range: set<Addr>, d: Disk, stuck: Stuck)
    requires Vmms(range, d)
    ensures forall n :: LiveRow(ReconciledDisk(d, stuck), n) <==> LiveRow(d, n)
    ensures forall n | LiveRow(d, n) ::
      d.rows[n].addr in d.host && d.host[d.rows[n].addr].vmm == Some(d.rows[n].proc)
    ensures LiveAddrs(ReconciledDisk(d, stuck)) == LiveAddrs(d)
  {
    var e := ReconciledDisk(d, stuck);
    forall n ensures LiveRow(e, n) <==> LiveRow(d, n) {
      if LiveRow(d, n) {
        LiveAddrIs(d, n);
        assert d.rows[n].proc in e.alive;
      }
    }
    SameLiveAddrs(d, e);
  }

  lemma ReconciledRecords(d: Disk, stuck: Stuck)
    ensures var e := ReconciledDisk(d, stuck);
            && e.rows.Keys == d.rows.Keys
            && (forall n | n in d.rows :: e.rows[n].LogOf() == d.rows[n].LogOf())
            && (forall n :: ParkedRow(e, n) <==> ParkedRow(d, n))
            && (forall l :: RecordedLog(e, l) <==> RecordedLog(d, l))
  {
    RecordedAlike(d, ReconciledDisk(d, stuck));
  }

  lemma ReconciledHostAgain(range: set<Addr>, d: Disk, stuck: Stuck)
    requires Vmms(range, d)
    ensures ReconciledDisk(ReconciledDisk(d, stuck), stuck).host == ReconciledDisk(d, stuck).host
    ensures ReconciledDisk(ReconciledDisk(d, stuck), stuck).leaked == ReconciledDisk(d, stuck).leaked
  {
    var e := ReconciledDisk(d, stuck);
    ReconciledLive(range, d, stuck);
    forall a | a in e.host && a !in LiveAddrs(d) ensures stuck.LeftAt(e.host[a], a) == e.host[a] {
      assert (d.host[a].objs * stuck.ObjsAt(a)) * stuck.ObjsAt(a) == d.host[a].objs * stuck.ObjsAt(a);
    }
  }

  lemma ReconciledFilesAgain(d: Disk, stuck: Stuck)
    ensures ReconciledDisk(ReconciledDisk(d, stuck), stuck).parked == ReconciledDisk(d, stuck).parked
    ensures ReconciledDisk(ReconciledDisk(d, stuck), stuck).damaged == ReconciledDisk(d, stuck).damaged
    ensures ReconciledDisk(ReconciledDisk(d, stuck), stuck).logs == ReconciledDisk(d, stuck).logs
  {
    var e := ReconciledDisk(d, stuck);
    ReconciledRecords(d, stuck);
    forall n | n in e.parked && !ParkedRow(d, n) ensures LeftOf(e.parked[n], stuck.files[n]) == e.parked[n] { }
  }

  lemma ReconciledRowsAgain(d: Disk, stuck: Stuck)
    requires forall n :: LiveRow(ReconciledDisk(d, stuck), n) <==> LiveRow(d, n)
    ensures ReconciledDisk(ReconciledDisk(d, stuck), stuck).rows == ReconciledDisk(d, stuck).rows
  {
    var e := ReconciledDisk(d, stuck);
    forall n | n in e.rows ensures ReconciledDisk(e, stuck).rows[n] == e.rows[n] {
      assert LiveRow(e, n) <==> LiveRow(d, n);
    }
  }

  /** Run again, `reconcile` finds nothing more that it can change. */
  lemma ReconcileIdempotent(range: set<Addr>, d: Disk, stuck: Stuck)
    requires DiskInv(range, d)
    ensures ReconciledDisk(ReconciledDisk(d, stuck), stuck) == ReconciledDisk(d, stuck)
  {
    ReconciledLive(range, d, stuck);
    ReconciledRowsAgain(d, stuck);
    ReconciledHostAgain(range, d, stuck);
    ReconciledFilesAgain(d, stuck);
    var e := ReconciledDisk(d, stuck);
    assert ReconciledDisk(e, stuck).alive == e.alive;
  }

  /** Nothing is left that no record owns, but what could not be removed. */
  lemma ReconcileOwns(range: set<Addr>, d: Disk, stuck: Stuck)
    requires DiskInv(range, d)
    ensures var e := ReconciledDisk(d, stuck);
            && (forall a | a in e.host && a !in stuck.objs :: exists n :: LiveRow(e, n) && e.rows[n].addr == a)
            && (forall p | p in e.alive :: exists n :: LiveRow(e, n) && e.rows[n].proc == p)
            && (forall n | n in e.parked && n !in stuck.files :: ParkedRow(e, n))
            && (forall l | l in e.logs && l !in stuck.logs :: RecordedLog(e, l))
            && (forall n :: !DeadRow(e, n))
  {
    var e := ReconciledDisk(d, stuck);
    ReconciledLive(range, d, stuck);
    ReconciledRecords(d, stuck);
    forall a | a in LiveAddrs(d) ensures exists n :: LiveRow(e, n) && e.rows[n].addr == a {
      var n :| n in d.rows && LiveRow(d, n) && d.rows[n].addr == a;
      assert LiveRow(e, n) && e.rows[n].addr == a;
    }
    forall p | p in e.alive ensures exists n :: LiveRow(e, n) && e.rows[n].proc == p {
      var n :| LiveRow(e, n) && e.rows[n].addr == d.alive[p];
      assert d.host[d.alive[p]].vmm == Some(p);
      assert LiveRow(d, n) && d.rows[n].proc == p;
    }
    forall n ensures !DeadRow(e, n) { assert LiveRow(e, n) <==> LiveRow(d, n); }
  }

  lemma RestoredCell(range: set<Addr>, d: Disk, stuck: Stuck, to: Node, n: Name)
    requires DiskInv(range, d) && IsReconciled(range, d, stuck, to)
    ensures Local(CellAt(to, n))
  {
    if n in d.rows {
      assert Restored(d, n, to.m.vms[n]);
      assert RecordedLog(d, d.rows[n].LogOf());
      assert d.rows[n].LogOf() in to.d.logs;
      if LiveRow(d, n) { LiveAddrIs(d, n); RestoredRunning(range, d, stuck, to, n); }
      else { RestoredEnded(range, d, stuck, to, n); }
    } else {
      UnownedLeft(d, stuck, n);
    }
  }

  /** What is left of a snapshot that no parked VM owns is nothing, or known. */
  lemma UnownedLeft(d: Disk, stuck: Stuck, n: Name)
    requires !ParkedRow(d, n)
    ensures n !in ReconciledDisk(d, stuck).damaged ==> ReconciledDisk(d, stuck).DirAt(n) == map[]
  {
  }

  lemma RestoredRunning(range: set<Addr>, d: Disk, stuck: Stuck, to: Node, n: Name)
    requires Vmms(range, d) && IsReconciled(range, d, stuck, to)
    requires LiveRow(d, n) && d.rows[n].LogOf() in to.d.logs && d.rows[n].addr in LiveAddrs(d)
    ensures Local(CellAt(to, n))
  {
    assert Restored(d, n, to.m.vms[n]);
    var a := d.rows[n].addr;
    assert d.alive[d.rows[n].proc] == a && a in d.host && d.host[a].vmm == Some(d.rows[n].proc);
    assert a in to.d.host && to.d.host[a] == d.host[a];
    assert !ParkedRow(d, n);
    UnownedLeft(d, stuck, n);
  }

  lemma RestoredEnded(range: set<Addr>, d: Disk, stuck: Stuck, to: Node, n: Name)
    requires IsReconciled(range, d, stuck, to)
    requires n in d.rows && !LiveRow(d, n) && d.rows[n].LogOf() in to.d.logs
    requires ParkedRow(d, n) && n !in d.damaged ==> HasWhole(Get(d.parked, n))
    ensures Local(CellAt(to, n))
  {
    assert Restored(d, n, to.m.vms[n]);
    if !ParkedRow(d, n) { UnownedLeft(d, stuck, n); } else { OwnedLeft(d, stuck, n); }
  }

  lemma OwnedLeft(d: Disk, stuck: Stuck, n: Name)
    requires ParkedRow(d, n)
    ensures Get(ReconciledDirs(d, stuck), n) == Get(d.parked, n)
    ensures n in ReconciledDamage(d, stuck) <==> n in d.damaged
  {
  }

  lemma RestoredHeld(range: set<Addr>, d: Disk, stuck: Stuck, to: Node)
    requires DiskInv(range, d) && IsReconciled(range, d, stuck, to)
    ensures Held(to.m.vms) == LiveAddrs(d) && Addresses(to)
  {
    ReconciledLive(range, d, stuck);
    forall n | n in to.m.vms
      ensures to.m.vms[n].Holds() <==> LiveRow(d, n)
      ensures to.m.vms[n].Holds() ==> to.m.vms[n].addr == d.rows[n].addr
    {
      assert Restored(d, n, to.m.vms[n]);
    }
    forall a ensures a in Held(to.m.vms) <==> a in LiveAddrs(d) {
      if a in LiveAddrs(d) {
        var n :| n in d.rows && LiveRow(d, n) && d.rows[n].addr == a;
        assert n in to.m.vms && to.m.vms[n].Holds();
      }
      if a in Held(to.m.vms) {
        var n :| n in to.m.vms && to.m.vms[n].Holds() && to.m.vms[n].addr == a;
        assert LiveRow(d, n);
      }
    }
  }

  lemma RestoredHost(range: set<Addr>, d: Disk, stuck: Stuck)
    requires Vmms(range, d)
    ensures HostOwned(range, ReconciledDisk(d, stuck), LiveAddrs(d))
  {
    var e := ReconciledDisk(d, stuck);
    forall p | p in e.alive ensures ProcOwned(e, LiveAddrs(d), p) {
      assert d.alive[p] in LiveAddrs(d) && d.alive[p] in e.host;
    }
  }

  lemma RestoredLogs(range: set<Addr>, d: Disk, stuck: Stuck, to: Node)
    requires RowLogs(d) && IsReconciled(range, d, stuck, to)
    ensures LogsDistinct(to.d.logs, to.m)
  {
    forall n, l | UsesLog(to.m, n, l) ensures n in d.rows && d.rows[n].LogOf() == l && l in d.logs {
      assert Restored(d, n, to.m.vms[n]);
    }
  }

  /** The Node a starting agent makes of what any crash left is sound again. */
  lemma ReconcileRestores(range: set<Addr>, d: Disk, stuck: Stuck, to: Node)
    requires DiskInv(range, d) && IsReconciled(range, d, stuck, to)
    ensures Inv(to)
  {
    forall n: Name ensures Local(CellAt(to, n)) { RestoredCell(range, d, stuck, to, n); }
    assert EachName(to);
    RestoredHeld(range, d, stuck, to);
    RestoredHost(range, d, stuck);
    RestoredLogs(range, d, stuck, to);
    RestoredRest(range, d, stuck, to);
  }

  lemma RestoredRest(range: set<Addr>, d: Disk, stuck: Stuck, to: Node)
    requires IsReconciled(range, d, stuck, to) && d.rows.Keys !! d.apps.Keys
    ensures Requests(to.m) && Numbered(to.m) && Parks(to.m) && Names(to)
  {
  }
}
