/** Runs that show the conditions of the other theorems are needed. */
module Counterexamples {
  import opened Common
  import opened Registry
  import opened RegistryInvariant
  import opened Recovery
  import opened NodeTheorems
  import opened Hostnames
  import opened Snapshots

  ghost predicate Reachable(s: Node) {
    exists ss, sts :: IsRun(ss, sts) && ss[|ss| - 1] == s
  }

  lemma NewIsReachable(range: set<Addr>)
    ensures Reachable(NewNode(range))
  {
    assert IsRun([NewNode(range)], []);
  }

  lemma StepReaches(s: Node, st: Step)
    requires Reachable(s) && Can(s, st)
    ensures Reachable(Do(s, st))
  {
    var ss, sts :| IsRun(ss, sts) && ss[|ss| - 1] == s;
    var ss', sts' := ss + [Do(s, st)], sts + [st];
    forall i | 0 <= i < |sts'| ensures Can(ss'[i], sts'[i]) && ss'[i + 1] == Do(ss'[i], sts'[i]) { }
    assert IsRun(ss', sts') && ss'[|ss'| - 1] == Do(s, st);
  }

  lemma ReachableIsSound(s: Node)
    requires Reachable(s)
    ensures Inv(s)
  {
    var ss, sts :| IsRun(ss, sts) && ss[|ss| - 1] == s;
    EveryStateSound(ss, sts, |ss| - 1);
  }

  predicate SupAt(s: Node, n: Name, sup: Sup) { Owned(s.m, n) && s.m.sups[n] == sup }

  lemma Takes(s: Node, st: Step) returns (s': Node)
    requires Reachable(s) && Can(s, st)
    ensures Reachable(s') && s' == Do(s, st)
  {
    s' := Do(s, st);
    StepReaches(s, st);
  }

  /** The host state of a VM that runs. */
  function UpHost(p: Proc): Host { Host({Netns, Cgroup, JailDir}, Some(p), map[Rootfs := RootfsOf(p)]) }

  /** A start of `n` that has its namespace, its VMM and its rootfs. */
  function HasVmm(s: Node, n: Name): Node
    requires JobAt(s, n, Entering)
  {
    var a := s.m.vms[n].addr;
    s.(d := s.d.(host := s.d.host[a := UpHost(s.d.nextProc)], alive := s.d.alive[s.d.nextProc := a],
                 nextProc := s.d.nextProc + 1),
       m := s.m.(jobs := s.m.jobs[n := s.m.jobs[n].(pc := Building)]))
  }

  lemma VmmSteps(s: Node, n: Name) returns (s1: Node, s2: Node)
    requires JobAt(s, n, Entering) && s.m.jobs[n].kind.Fresh? && s.m.vms[n].addr !in s.d.host
    ensures CanBuild(s, Enter(n)) && s1 == DoBuild(s, Enter(n))
    ensures CanBuild(s1, SpawnVmm(n)) && s2 == DoBuild(s1, SpawnVmm(n))
    ensures CanBuild(s2, WriteRootfs(n)) && DoBuild(s2, WriteRootfs(n)) == HasVmm(s, n)
  {
    s1 := DoBuild(s, Enter(n));
    s2 := DoBuild(s1, SpawnVmm(n));
    var s3 := DoBuild(s2, WriteRootfs(n));
    assert s3.d.HostAt(s.m.vms[n].addr) == UpHost(s.d.nextProc);
  }

  lemma MakesVmm(s: Node, n: Name) returns (s': Node)
    requires Reachable(s) && JobAt(s, n, Entering) && s.m.jobs[n].kind.Fresh? && s.m.vms[n].addr !in s.d.host
    ensures Reachable(s') && s' == HasVmm(s, n)
  {
    var s1, s2 := VmmSteps(s, n);
    StepReaches(s, Build(Enter(n)));
    StepReaches(s1, Build(SpawnVmm(n)));
    StepReaches(s2, Build(WriteRootfs(n)));
    s' := HasVmm(s, n);
  }

  /** A start of `n` whose VM has come up. */
  function CameUp(s: Node, n: Name): Node
    requires JobAt(s, n, Entering)
  {
    var s' := HasVmm(s, n);
    s'.(d := s'.d.(logs := s.d.logs + {s.m.vms[n].log}),
        m := s.m.(jobs := s.m.jobs[n := s.m.jobs[n].(pc := Built(s.d.nextProc))]))
  }

  lemma ComesUpSteps(s: Node, n: Name) returns (s1: Node)
    requires JobAt(s, n, Entering) && s.m.jobs[n].kind.Fresh?
    requires s.m.vms[n].addr !in s.d.host && s.m.vms[n].log !in s.d.logs
    ensures CanBuild(HasVmm(s, n), MakeLog(n)) && s1 == DoBuild(HasVmm(s, n), MakeLog(n))
    ensures CanBuild(s1, BuildOk(n)) && DoBuild(s1, BuildOk(n)) == CameUp(s, n)
  {
    s1 := DoBuild(HasVmm(s, n), MakeLog(n));
    var q := s.d.nextProc;
    assert UpHost(q).jail[Rootfs := RootfsOf(q)] == UpHost(q).jail;
    assert s1.d.HostAt(s.m.vms[n].addr) == UpHost(q);
  }

  lemma ComesUp(s: Node, n: Name) returns (s': Node)
    requires Reachable(s) && JobAt(s, n, Entering) && s.m.jobs[n].kind.Fresh?
    requires s.m.vms[n].addr !in s.d.host && s.m.vms[n].log !in s.d.logs
    ensures Reachable(s') && s' == CameUp(s, n)
  {
    var s0 := MakesVmm(s, n);
    var s1 := ComesUpSteps(s, n);
    StepReaches(s0, Build(MakeLog(n)));
    StepReaches(s1, Build(BuildOk(n)));
    s' := CameUp(s, n);
  }

  /** A start whose VM comes up. */
  lemma Builds(s: Node, n: Name, route: Option<Route>, a: Addr) returns (s': Node)
    requires Reachable(s) && CanApi(s, ReserveStart(n, route, a)) && a !in s.d.host && n !in s.m.vms
    ensures Reachable(s') && s' == CameUp(DoApi(s, ReserveStart(n, route, a)), n)
  {
    ReachableIsSound(s);
    var s1 := Takes(s, Api(ReserveStart(n, route, a)));
    s' := ComesUp(s1, n);
  }

  /** It is recorded, and handed to its supervisor. */
  lemma GoesUp(s: Node, n: Name, p: Proc) returns (s': Node)
    requires Reachable(s) && JobAt(s, n, Built(p)) && s.m.jobs[n].kind == Fresh(None)
    ensures Reachable(s') && s'.range == s.range
    ensures s'.m.vms == s.m.vms[n := Running(s.m.vms[n].addr, s.m.vms[n].log, s.m.vms[n].route, s.m.nextInst)]
    ensures s'.m.sups == s.m.sups[n := Up([])] && s'.m.jobs == s.m.jobs - {n} && s'.m.parks == s.m.parks
    ensures s'.m.nextInst == s.m.nextInst + 1 && s'.m.nextLog == s.m.nextLog
    ensures s'.d == s.d.(rows := s.d.rows[n := RowRunning(s.m.vms[n].addr, p, s.m.vms[n].log, s.m.vms[n].route)],
                         stale := s.d.stale - {n})
  {
    var s5 := Takes(s, Task(Insert(n, true)));
    var s6 := Takes(s5, Task(Tidy(n)));
    s' := Takes(s6, Task(Supervise(n)));
    assert s'.m.jobs == s.m.jobs - {n};
  }

  /** Every undo step of `n` has worked. */
  function Cleared(s: Node, n: Name): Node
    requires n in s.m.vms && s.m.vms[n].Holds()
  {
    var a := s.m.vms[n].addr;
    s.(d := WithHost(s.d, a, Host({}, s.d.HostAt(a).vmm, map[])))
  }

  lemma ClearSteps(s: Node, n: Name) returns (s1: Node, s2: Node)
    requires TearingDown(s, n) && !s.d.Lives(s.m.vms[n].addr)
    requires s.d.HostAt(s.m.vms[n].addr).objs == {Netns, Cgroup, JailDir}
    ensures CanBuild(s, Undo(n, Cgroup)) && s1 == DoBuild(s, Undo(n, Cgroup))
    ensures CanBuild(s1, Undo(n, JailDir)) && s2 == DoBuild(s1, Undo(n, JailDir))
    ensures CanBuild(s2, Undo(n, Netns)) && DoBuild(s2, Undo(n, Netns)) == Cleared(s, n)
  {
    s1 := DoBuild(s, Undo(n, Cgroup));
    s2 := DoBuild(s1, Undo(n, JailDir));
    var s3 := DoBuild(s2, Undo(n, Netns));
    assert s3.d.HostAt(s.m.vms[n].addr).objs == {};
  }

  lemma Clears(s: Node, n: Name) returns (s': Node)
    requires Reachable(s) && TearingDown(s, n) && !s.d.Lives(s.m.vms[n].addr)
    requires s.d.HostAt(s.m.vms[n].addr).objs == {Netns, Cgroup, JailDir}
    ensures Reachable(s') && s' == Cleared(s, n)
  {
    var s1, s2 := ClearSteps(s, n);
    StepReaches(s, Build(Undo(n, Cgroup)));
    StepReaches(s1, Build(Undo(n, JailDir)));
    StepReaches(s2, Build(Undo(n, Netns)));
    s' := Cleared(s, n);
  }

  /** A VM that is torn down ends; the database takes that, or (`ok` false) refuses. */
  lemma EndSteps(s: Node, n: Name, reason: Reason, ok: bool) returns (s1: Node, s2: Node)
    requires SupAt(s, n, Down(reason)) && n in s.d.rows && !s.d.Lives(s.m.vms[n].addr)
    requires s.d.HostAt(s.m.vms[n].addr).objs == {}
    ensures CanSup(s, SupGone(n)) && s1 == DoSup(s, SupGone(n))
    ensures CanSup(s1, RecordEnd(n, ok)) && s2 == DoSup(s1, RecordEnd(n, ok))
    ensures s2.range == s.range && s2.d.parked == s.d.parked && s2.m.jobs == s.m.jobs && s2.d.alive == s.d.alive
    ensures s2.m.vms == s.m.vms[n := Ended(Record(reason, s.m.vms[n].log, s.m.vms[n].route))]
    ensures s2.d.rows == if ok then s.d.rows[n := s.d.rows[n].MarkedEnded(reason)] else s.d.rows
    ensures s2.d.host == s.d.host - {s.m.vms[n].addr} && s2.d.apps == s.d.apps
  {
    s1 := DoSup(s, SupGone(n));
    s2 := DoSup(s1, RecordEnd(n, ok));
  }

  lemma EndsAs(s: Node, n: Name, reason: Reason, ok: bool) returns (s': Node)
    requires Reachable(s) && SupAt(s, n, Down(reason)) && n in s.d.rows && !s.d.Lives(s.m.vms[n].addr)
    requires s.d.HostAt(s.m.vms[n].addr).objs == {Netns, Cgroup, JailDir}
    ensures Reachable(s') && s'.range == s.range && s'.d.parked == s.d.parked && s'.m.jobs == s.m.jobs
    ensures s'.m.vms == s.m.vms[n := Ended(Record(reason, s.m.vms[n].log, s.m.vms[n].route))]
    ensures s'.d.rows == if ok then s.d.rows[n := s.d.rows[n].MarkedEnded(reason)] else s.d.rows
    ensures s'.d.alive == s.d.alive && s'.d.host == s.d.host - {s.m.vms[n].addr} && s'.d.apps == s.d.apps
  {
    var s0 := Clears(s, n);
    assert s0.d.HostAt(s.m.vms[n].addr) == Host({}, s.d.HostAt(s.m.vms[n].addr).vmm, map[]);
    var s1, s2 := EndSteps(s0, n, reason, ok);
    StepReaches(s0, Super(SupGone(n)));
    StepReaches(s1, Super(RecordEnd(n, ok)));
    s' := s2;
    assert s'.d.host == s.d.host - {s.m.vms[n].addr};
  }

  /** It exits, and its end is recorded. */
  lemma Exits(s: Node, n: Name, p: Proc) returns (s': Node)
    requires Reachable(s) && SupAt(s, n, Up([])) && n in s.d.rows && s.d.HostAt(s.m.vms[n].addr) == UpHost(p)
    ensures Reachable(s') && s'.range == s.range && s'.m.jobs == s.m.jobs && s'.d.apps == s.d.apps
    ensures s'.m.vms == s.m.vms[n := Ended(Record(Exited, s.m.vms[n].log, s.m.vms[n].route))]
    ensures s'.d.host == s.d.host - {s.m.vms[n].addr}
  {
    var s1 := Takes(s, Super(SupEnd(n, Exited)));
    assert SupAt(s1, n, Down(Exited)) && s1.d.HostAt(s.m.vms[n].addr) == UpHost(p);
    s' := EndsAs(s1, n, Exited, true);
  }

  lemma UpOnce(r: Route) returns (s: Node)
    ensures Reachable(s) && s.range == {2, 3} && s.m.jobs == map[] && s.m.parks == map[] && SupAt(s, "a", Up([]))
    ensures s.m.vms == map["a" := Running(2, 0, Some(r), 0)] && s.d.rows == map["a" := RowRunning(2, 0, 0, Some(r))]
    ensures s.d.HostAt(2) == UpHost(0) && s.d.parked == map[] && s.d.apps == map[]
    ensures s.d.host.Keys == {2}
  {
    NewIsReachable({2, 3});
    var s1 := Builds(NewNode({2, 3}), "a", Some(r), 2);
    s := GoesUp(s1, "a", 0);
  }

  /** An Ended VM with a hostname, and an address it left free. */
  lemma EndedOnce(r: Route) returns (s: Node)
    ensures Reachable(s) && s.range == {2, 3} && s.d.host == map[] && s.d.apps == map[] && s.m.jobs == map[]
    ensures s.m.vms == map["a" := Ended(Record(Exited, 0, Some(r)))]
  {
    var s1 := UpOnce(r);
    s := Exits(s1, "a", 0);
  }

  lemma SharedReserves(s: Node, r: Route) returns (s1: Node, s2: Node)
    requires s.range == {2, 3} && s.d.apps == map[] && s.m.jobs == map[]
    requires s.m.vms == map["a" := Ended(Record(Exited, 0, Some(r)))]
    ensures CanApi(s, ReserveStart("a", None, 2)) && s1 == DoApi(s, ReserveStart("a", None, 2))
    ensures CanApi(s1, ReserveStart("b", Some(r), 3)) && s2 == DoApi(s1, ReserveStart("b", Some(r), 3))
    ensures s2.d == s.d && s2.m.vms == map["a" := Starting(2, s.m.nextLog, None), "b" := Starting(3, s.m.nextLog + 1, Some(r))]
    ensures JobAt(s2, "a", Entering) && s2.m.jobs["a"].kind == Fresh(Some(Record(Exited, 0, Some(r))))
    ensures JobAt(s2, "b", Entering) && s2.m.jobs["b"].kind == Fresh(None) && s2.m.jobs.Keys == {"a", "b"}
  {
    s1 := DoApi(s, ReserveStart("a", None, 2));
    assert s1.m.vms == map["a" := Starting(2, s.m.nextLog, None)];
    s2 := DoApi(s1, ReserveStart("b", Some(r), 3));
  }

  /** Its own start fails, with nothing made yet. */
  lemma Fails(s: Node, n: Name) returns (s1: Node, s2: Node)
    requires JobAt(s, n, Entering) && s.m.jobs[n].kind.Fresh? && s.d.host == map[]
    ensures CanBuild(s, EnterErr(n, false)) && s1 == DoBuild(s, EnterErr(n, false))
    ensures CanBuild(s1, UnwindDone(n)) && s2 == DoBuild(s1, UnwindDone(n))
    ensures s2.d.apps == s.d.apps && s2.m.vms == s.m.vms
    ensures JobAt(s2, n, Failed) && s2.m.jobs[n].kind == s.m.jobs[n].kind
  {
    s1 := DoBuild(s, EnterErr(n, false));
    s2 := DoBuild(s1, UnwindDone(n));
  }

  lemma SharedAfter(s: Node, r: Route)
    requires s.d.apps == map[] && s.m.vms.Keys == {"a", "b"}
    requires JobAt(s, "a", Failed) && s.m.jobs["a"].kind == Fresh(Some(Record(Exited, 0, Some(r))))
    requires s.m.vms["a"].RouteOf() == None && s.m.vms["b"].RouteOf() == Some(r)
    ensures HostUnique(s) && CanTask(s, Forget("a")) && !HostUnique(DoTask(s, Forget("a")))
  {
    PutBackKeepsHosts(s, "a");
    assert "b" in s.m.vms && s.m.vms["b"].HasHost(r.host);
  }

  lemma TwoStarts(r: Route) returns (s: Node)
    ensures Reachable(s) && s.d.apps == map[] && s.d.host == map[] && s.m.jobs.Keys == {"a", "b"}
    ensures s.m.vms.Keys == {"a", "b"} && s.m.vms["a"].RouteOf() == None && s.m.vms["b"].RouteOf() == Some(r)
    ensures JobAt(s, "a", Entering) && s.m.jobs["a"].kind == Fresh(Some(Record(Exited, 0, Some(r))))
    ensures JobAt(s, "b", Entering) && s.m.jobs["b"].kind == Fresh(None) && s.m.vms["b"].log !in s.d.logs
  {
    var s0 := EndedOnce(r);
    ReachableIsSound(s0);
    var s1, s2 := SharedReserves(s0, r);
    StepReaches(s0, Api(ReserveStart("a", None, 2)));
    StepReaches(s1, Api(ReserveStart("b", Some(r), 3)));
    s := s2;
  }

  /** A failed start can put back an Ended VM whose hostname another App has taken meanwhile, so two
      Apps then have it: the condition of `PutBackKeepsHosts` is needed. */
  lemma HostnameShared(r: Route) returns (s: Node)
    ensures Reachable(s) && HostUnique(s)
    ensures CanTask(s, Forget("a")) && !HostUnique(DoTask(s, Forget("a")))
  {
    var s2 := TwoStarts(r);
    var s3, s4 := Fails(s2, "a");
    SharedAfter(s4, r);
    StepReaches(s2, Build(EnterErr("a", false)));
    StepReaches(s3, Build(UnwindDone("a")));
    s := s4;
  }

  /** The start that took the hostname is on record; the one that set it aside is not. */
  lemma SharedOnRecord(s: Node, r: Route, p: Proc)
    requires s.d.apps == map[] && s.m.vms.Keys == {"a", "b"} && s.m.jobs.Keys == {"a", "b"}
    requires JobAt(s, "a", Entering) && s.m.jobs["a"].kind == Fresh(Some(Record(Exited, 0, Some(r))))
    requires s.m.vms["a"].RouteOf() == None && s.m.vms["b"].RouteOf() == Some(r) && JobAt(s, "b", Built(p))
    ensures CanTask(s, Insert("b", true))
    ensures HostUnique(DoTask(s, Insert("b", true))) && !NoneSharesSetAside(DoTask(s, Insert("b", true)))
  {
    var s' := DoTask(s, Insert("b", true));
    assert SetAside(s'.m, "a") == Some(Record(Exited, 0, Some(r)));
    assert "b" in s'.d.rows && s'.d.rows["b"].RouteOf() == Some(r);
    assert RecordedByOther(s'.d, "a", r.host);
  }

  lemma TakenMeanwhile(r: Route) returns (s: Node)
    ensures Reachable(s) && HostUnique(s) && !NoneSharesSetAside(s)
  {
    var s2 := TwoStarts(r);
    var s3 := ComesUp(s2, "b");
    SharedOnRecord(s3, r, s2.d.nextProc);
    s := Takes(s3, Task(Insert("b", true)));
  }

  /** So can a restart, when another App has taken the hostname of an Ended VM that a start had set aside: the
      condition of `RestartKeepsHosts` is needed. */
  lemma HostnameSharedByRestart(r: Route) returns (s: Node, to: Node)
    ensures Reachable(s) && HostUnique(s)
    ensures Can(s, Restart([], NothingStuck, to)) && Do(s, Restart([], NothingStuck, to)) == to && !HostUnique(to)
  {
    s := TakenMeanwhile(r);
    to := AlwaysRestarts(s, [], NothingStuck);
    ReachableIsSound(s);
    RestartKeepsHosts(s, Restart([], NothingStuck, to));
  }

  // ------------------------------------------------- snapshots that are lost --

  lemma ParkSends(s: Node) returns (s1: Node, s2: Node)
    requires SupAt(s, "a", Up([])) && s.m.parks == map[]
    ensures CanApi(s, ClaimPark("a")) && s1 == DoApi(s, ClaimPark("a"))
    ensures CanPark(s1, Send(s.m.vms["a"].inst)) && s2 == DoPark(s1, Send(s.m.vms["a"].inst))
    ensures var i := s.m.vms["a"].inst;
            s2 == s.(m := s.m.(parks := map[i := Queued("a", i)], sups := s.m.sups["a" := Up([i])]))
  {
    s1 := DoApi(s, ClaimPark("a"));
    s2 := DoPark(s1, Send(s.m.vms["a"].inst));
    assert [] + [s.m.vms["a"].inst] == [s.m.vms["a"].inst];
    assert s2.m.sups["a"] == Up([s.m.vms["a"].inst]);
    assert s2.m.parks == map[s.m.vms["a"].inst := Queued("a", s.m.vms["a"].inst)];
  }

  lemma ParkKills(s: Node, i: Inst) returns (s1: Node, s2: Node)
    requires SupAt(s, "a", Up([i])) && s.d.parked == map[]
    ensures CanSup(s, ParkBegin("a")) && s1 == DoSup(s, ParkBegin("a"))
    ensures CanSup(s1, ParkKill("a")) && s2 == DoSup(s1, ParkKill("a"))
    ensures s2 == s.(d := s.d.(parked := map["a" := map[]], alive := s.d.Killed(s.m.vms["a"].addr)),
                     m := s.m.(sups := s.m.sups["a" := Moving(i)]))
  {
    s1 := DoSup(s, ParkBegin("a"));
    assert s1.m.sups["a"] == Snapping(i, []);
    s2 := DoSup(s1, ParkKill("a"));
    assert s2.m.sups == s.m.sups["a" := Moving(i)];
  }

  /** The snapshot that the park of the VM of `p` makes. */
  function SnapshotOf(p: Proc): Dir { map[VmState := OfPark(p), Memory := OfPark(p), Rootfs := OfPark(p)] }

  lemma StateMoves(s: Node, c: Inst, p: Proc) returns (s1: Node, s2: Node)
    requires SupAt(s, "a", Moving(c)) && s.d.parked == map["a" := map[]] && s.d.HostAt(s.m.vms["a"].addr) == UpHost(p)
    ensures CanSup(s, ParkMove("a", VmState)) && s1 == DoSup(s, ParkMove("a", VmState))
    ensures CanSup(s1, ParkMove("a", Memory)) && s2 == DoSup(s1, ParkMove("a", Memory))
    ensures s2.d.HostAt(s.m.vms["a"].addr) == UpHost(p)
    ensures s2 == s.(d := s.d.(parked := map["a" := map[VmState := OfPark(p), Memory := OfPark(p)]], host := s2.d.host))
    ensures s2.d.host - {s.m.vms["a"].addr} == s.d.host - {s.m.vms["a"].addr}
  {
    var a := s.m.vms["a"].addr;
    s1 := DoSup(s, ParkMove("a", VmState));
    assert s1.d.HostAt(a) == UpHost(p) && s1.d.DirAt("a") == map[VmState := OfPark(p)];
    s2 := DoSup(s1, ParkMove("a", Memory));
    assert s2.d.DirAt("a") == map[VmState := OfPark(p), Memory := OfPark(p)];
  }

  lemma RootfsMoves(s: Node, c: Inst, p: Proc) returns (s1: Node, s2: Node)
    requires SupAt(s, "a", Moving(c)) && s.d.HostAt(s.m.vms["a"].addr) == UpHost(p)
    requires s.d.parked == map["a" := map[VmState := OfPark(p), Memory := OfPark(p)]]
    ensures CanSup(s, ParkMove("a", Rootfs)) && s1 == DoSup(s, ParkMove("a", Rootfs))
    ensures CanSup(s1, ParkOk("a")) && s2 == DoSup(s1, ParkOk("a"))
    ensures s2.d == s.d.(parked := map["a" := SnapshotOf(p)], damaged := s.d.damaged - {"a"}, host := s2.d.host)
    ensures s2.d.HostAt(s.m.vms["a"].addr) == UpHost(p).(jail := map[])
    ensures s2.d.host - {s.m.vms["a"].addr} == s.d.host - {s.m.vms["a"].addr} && SupAt(s2, "a", Down(Reason.Parked))
    ensures s2.range == s.range && s2.m.vms == s.m.vms && s2.m.jobs == s.m.jobs
  {
    s1 := DoSup(s, ParkMove("a", Rootfs));
    assert s1.d.HostAt(s.m.vms["a"].addr) == UpHost(p).(jail := map[]) && s1.d.DirAt("a") == SnapshotOf(p);
    s2 := DoSup(s1, ParkOk("a"));
  }

  lemma ParkSent(s: Node) returns (s': Node)
    requires Reachable(s) && SupAt(s, "a", Up([])) && s.m.parks == map[]
    ensures Reachable(s') && s'.d == s.d && s'.range == s.range && s'.m.vms == s.m.vms && s'.m.jobs == s.m.jobs
    ensures SupAt(s', "a", Up([s.m.vms["a"].inst]))
  {
    var s1, s2 := ParkSends(s);
    StepReaches(s, Api(ClaimPark("a")));
    StepReaches(s1, Parking(Send(s.m.vms["a"].inst)));
    s' := s2;
  }

  lemma ParkStarts(s: Node, i: Inst) returns (s': Node)
    requires Reachable(s) && SupAt(s, "a", Up([i])) && s.d.parked == map[]
    ensures Reachable(s')
    ensures s' == s.(d := s.d.(parked := map["a" := map[]], alive := s.d.Killed(s.m.vms["a"].addr)),
                     m := s.m.(sups := s.m.sups["a" := Moving(i)]))
  {
    var s1, s2 := ParkKills(s, i);
    StepReaches(s, Super(ParkBegin("a")));
    StepReaches(s1, Super(ParkKill("a")));
    s' := s2;
  }

  lemma ParkFinishes(s: Node, c: Inst, p: Proc) returns (s': Node)
    requires Reachable(s) && SupAt(s, "a", Moving(c)) && s.d.parked == map["a" := map[]]
    requires s.d.HostAt(s.m.vms["a"].addr) == UpHost(p)
    ensures Reachable(s') && SupAt(s', "a", Down(Reason.Parked))
    ensures s'.d == s.d.(parked := map["a" := SnapshotOf(p)], damaged := s.d.damaged - {"a"}, host := s'.d.host)
    ensures s'.d.HostAt(s.m.vms["a"].addr) == UpHost(p).(jail := map[])
    ensures s'.d.host - {s.m.vms["a"].addr} == s.d.host - {s.m.vms["a"].addr}
    ensures s'.range == s.range && s'.m.vms == s.m.vms && s'.m.jobs == s.m.jobs
  {
    var s1, s2 := StateMoves(s, c, p);
    StepReaches(s, Super(ParkMove("a", VmState)));
    StepReaches(s1, Super(ParkMove("a", Memory)));
    var s3, s4 := RootfsMoves(s2, c, p);
    StepReaches(s2, Super(ParkMove("a", Rootfs)));
    StepReaches(s3, Super(ParkOk("a")));
    s' := s4;
  }

  lemma ParkedOnce(r: Route, ok: bool) returns (s: Node)
    ensures Reachable(s) && s.range == {2, 3} && s.m.jobs == map[] && 0 !in s.d.alive
    ensures s.m.vms == map["a" := Ended(Record(Reason.Parked, 0, Some(r)))]
    ensures s.d.rows == map["a" := if ok then RowEnded(Record(Reason.Parked, 0, Some(r))) else RowRunning(2, 0, 0, Some(r))]
    ensures s.d.parked == map["a" := SnapshotOf(0)] && s.d.host == map[] && s.d.apps == map[]
  {
    var s1 := UpOnce(r);
    var s2 := ParkSent(s1);
    var s3 := ParkStarts(s2, 0);
    assert s3.d.HostAt(2) == UpHost(0);
    var s4 := ParkFinishes(s3, 0, 0);
    assert s4.d.HostAt(2).objs == {Netns, Cgroup, JailDir};
    s := EndsAs(s4, "a", Reason.Parked, ok);
  }

  lemma WakeReserved(s: Node, rec: Record, a: Addr) returns (s': Node)
    requires s.range == {2, 3} && a in s.range && s.m.vms == map["a" := Ended(rec)] && rec.reason.Parked? && "a" in s.d.parked
    ensures CanApi(s, ReserveWake("a", a)) && s' == DoApi(s, ReserveWake("a", a))
    ensures JobAt(s', "a", Entering) && s'.m.jobs["a"].kind == FromSnapshot(rec) && s'.d == s.d && s'.range == s.range
    ensures s'.m.vms["a"].addr == a
  {
    s' := DoApi(s, ReserveWake("a", a));
  }

  lemma WakeEntered(s: Node, rec: Record) returns (s': Node)
    requires JobAt(s, "a", Entering) && s.m.jobs["a"].kind == FromSnapshot(rec)
    requires Netns !in s.d.HostAt(s.m.vms["a"].addr).objs
    ensures CanBuild(s, Enter("a")) && s' == DoBuild(s, Enter("a"))
    ensures JobAt(s', "a", Building) && s'.m.jobs["a"].kind == FromSnapshot(rec) && s'.range == s.range
    ensures s'.d == s.d.(host := s'.d.host) && s'.m.vms == s.m.vms
    ensures s'.d.HostAt(s.m.vms["a"].addr).jail == s.d.HostAt(s.m.vms["a"].addr).jail
  {
    s' := DoBuild(s, Enter("a"));
  }

  /** A wake of `a` at the address, with a namespace. */
  lemma WakesAt(s: Node, rec: Record, a: Addr) returns (s': Node)
    requires Reachable(s) && s.range == {2, 3} && a in s.range && s.m.vms == map["a" := Ended(rec)] && rec.reason.Parked?
    requires "a" in s.d.parked && Netns !in s.d.HostAt(a).objs
    ensures Reachable(s') && JobAt(s', "a", Building) && s'.m.jobs["a"].kind == FromSnapshot(rec) && s'.range == s.range
    ensures s'.d == s.d.(host := s'.d.host) && s'.m.vms["a"].addr == a && s'.d.HostAt(a).jail == s.d.HostAt(a).jail
  {
    var s1 := WakeReserved(s, rec, a);
    StepReaches(s, Api(ReserveWake("a", a)));
    s' := WakeEntered(s1, rec);
    StepReaches(s1, Build(Enter("a")));
  }

  lemma MoveSteps(s: Node, rec: Record) returns (s1: Node, s2: Node, s3: Node)
    requires JobAt(s, "a", Building) && s.m.jobs["a"].kind == FromSnapshot(rec)
    requires s.d.parked.Keys == {"a"} && s.d.parked["a"].Keys == {VmState, Memory, Rootfs}
    ensures CanBuild(s, MoveIn("a", VmState)) && s1 == DoBuild(s, MoveIn("a", VmState))
    ensures CanBuild(s1, MoveIn("a", Memory)) && s2 == DoBuild(s1, MoveIn("a", Memory))
    ensures CanBuild(s2, MoveIn("a", Rootfs)) && s3 == DoBuild(s2, MoveIn("a", Rootfs))
    ensures s3.range == s.range && s3.d.rows == s.d.rows && s3.d.DirAt("a") == map[]
  {
    s1 := DoBuild(s, MoveIn("a", VmState));
    s2 := DoBuild(s1, MoveIn("a", Memory));
    s3 := DoBuild(s2, MoveIn("a", Rootfs));
    assert s3.d.parked["a"].Keys == {};
  }

  lemma LostMidWake(s: Node, rec: Record, to: Node)
    requires s.d.rows == map["a" := RowEnded(rec)] && rec.reason.Parked? && s.d.DirAt("a") == map[]
    requires IsReconciled(s.range, AfterCrash(s), NothingStuck, to)
    ensures "a" in to.m.vms && to.m.vms["a"].Parked() && to.d.DirAt("a") == map[]
  {
    assert Restored(AfterCrash(s), "a", to.m.vms["a"]);
  }

  lemma MidWakeOnce(r: Route) returns (s: Node)
    ensures Reachable(s) && s.d.rows == map["a" := RowEnded(Record(Reason.Parked, 0, Some(r)))] && s.d.DirAt("a") == map[]
  {
    var s0 := ParkedOnce(r, true);
    var rec := Record(Reason.Parked, 0, Some(r));
    var s2 := WakesAt(s0, rec, 2);
    var s3, s4, s5 := MoveSteps(s2, rec);
    StepReaches(s2, Build(MoveIn("a", VmState)));
    StepReaches(s3, Build(MoveIn("a", Memory)));
    StepReaches(s4, Build(MoveIn("a", Rootfs)));
    s := s5;
  }

  /** A crash while a wake has the snapshot in its jail leaves a parked VM with nothing to wake it from. */
  lemma SnapshotLostInCrash(r: Route) returns (s: Node)
    ensures Reachable(s) && "a" in s.m.vms && s.m.vms["a"].Parked() && s.d.DirAt("a") == map[]
  {
    var s0 := MidWakeOnce(r);
    s := AlwaysRestarts(s0, [], NothingStuck);
    LostMidWake(s0, Record(Reason.Parked, 0, Some(r)), s);
    StepReaches(s0, Restart([], NothingStuck, s));
  }

  lemma DroppedByRestart(s: Node, r: Route, to: Node)
    requires s.d.rows == map["a" := RowRunning(2, 0, 0, Some(r))] && 0 !in s.d.alive
    requires IsReconciled(s.range, AfterCrash(s), NothingStuck, to)
    ensures "a" in to.m.vms && to.m.vms["a"] == Ended(Record(AgentDown, 0, Some(r))) && "a" !in to.d.parked
  {
    assert Restored(AfterCrash(s), "a", to.m.vms["a"]);
    assert !ParkedRow(AfterCrash(s), "a");
  }

  /** A park the database would not record: the VM is parked and can be woken, and a restart takes it for one that
      died with the agent and deletes its snapshot, whole as it is. */
  lemma ParkForgotten(r: Route) returns (s: Node, to: Node)
    ensures Reachable(s) && "a" in s.m.vms && s.m.vms["a"].Parked() && Wakeable(s, "a", 0)
    ensures Can(s, Restart([], NothingStuck, to)) && Do(s, Restart([], NothingStuck, to)) == to
    ensures "a" in to.m.vms && to.m.vms["a"] == Ended(Record(AgentDown, 0, Some(r))) && "a" !in to.d.parked
  {
    s := ParkedOnce(r, false);
    to := AlwaysRestarts(s, [], NothingStuck);
    DroppedByRestart(s, r, to);
  }

  // ------------------------------------------- put-backs over a whole snapshot --

  lemma CwdSteps(s: Node, rec: Record) returns (s': Node)
    requires JobAt(s, "a", Entering) && s.m.jobs["a"].kind == FromSnapshot(rec) && s.d.parked == map["a" := SnapshotOf(0)]
    ensures CanBuild(s, EnterErr("a", false)) && s' == DoBuild(s, EnterErr("a", false))
    ensures PuttingBackFromCwd(s', "a") && s'.m.jobs["a"].pc.left == {VmState, Memory, Rootfs} && Wakeable(s', "a", 0)
    ensures s'.d.parked == s.d.parked
  {
    s' := DoBuild(s, EnterErr("a", false));
  }

  /** A wake that cannot make its namespace puts back what the agent's working directory has under a snapshot's name. */
  lemma CwdTaken(r: Route, what: nat) returns (s: Node)
    ensures Reachable(s) && Wakeable(s, "a", 0) && CanBuild(s, TakeCwd("a", Rootfs, Foreign(what)))
    ensures !Wakeable(DoBuild(s, TakeCwd("a", Rootfs, Foreign(what))), "a", 0)
  {
    var s0 := ParkedOnce(r, true);
    var rec := Record(Reason.Parked, 0, Some(r));
    var s1 := WakeReserved(s0, rec, 2);
    StepReaches(s0, Api(ReserveWake("a", 2)));
    s := CwdSteps(s1, rec);
    StepReaches(s1, Build(EnterErr("a", false)));
    TakeCwdHarms(s, "a", Rootfs, Foreign(what), 0);
  }

  /** What a failed start leaves when its jail cannot be removed. */
  function JailLeft(q: Proc): Host { Host({JailDir}, None, map[Rootfs := RootfsOf(q)]) }

  lemma FailsSteps(s: Node, q: Proc) returns (s1: Node, s2: Node)
    requires JobAt(s, "b", Building) && s.m.jobs["b"].kind.Fresh?
    requires s.d.HostAt(s.m.vms["b"].addr) == UpHost(q) && q in s.d.alive
    ensures CanBuild(s, BuildErr("b")) && s1 == DoBuild(s, BuildErr("b"))
    ensures CanSup(s1, VmmDies(q)) && s2 == DoSup(s1, VmmDies(q))
    ensures JobAt(s2, "b", Unwinding) && s2.m.jobs["b"].kind == s.m.jobs["b"].kind && s2.m.vms == s.m.vms
    ensures s2.d == s.d.(alive := s.d.alive - {q}) && s2.range == s.range && s2.m.jobs.Keys == s.m.jobs.Keys
  {
    s1 := DoBuild(s, BuildErr("b"));
    s2 := DoSup(s1, VmmDies(q));
  }

  lemma LeavesSteps(s: Node, q: Proc) returns (s1: Node, s2: Node)
    requires JobAt(s, "b", Unwinding) && s.d.HostAt(s.m.vms["b"].addr) == UpHost(q) && q !in s.d.alive
    ensures CanBuild(s, Undo("b", Cgroup)) && s1 == DoBuild(s, Undo("b", Cgroup))
    ensures CanBuild(s1, Undo("b", Netns)) && s2 == DoBuild(s1, Undo("b", Netns))
    ensures s2.d.HostAt(s.m.vms["b"].addr) == UpHost(q).(objs := {JailDir}) && s2 == s.(d := s.d.(host := s2.d.host))
  {
    var a := s.m.vms["b"].addr;
    s1 := DoBuild(s, Undo("b", Cgroup));
    assert s1.d.HostAt(a) == UpHost(q).(objs := {Netns, JailDir});
    s2 := DoBuild(s1, Undo("b", Netns));
    assert s2.d.HostAt(a).objs == {JailDir};
  }

  lemma LeftSteps(s: Node, q: Proc) returns (s': Node)
    requires JobAt(s, "b", Unwinding) && q !in s.d.alive
    requires s.d.HostAt(s.m.vms["b"].addr) == UpHost(q).(objs := {JailDir})
    ensures CanBuild(s, UnwindDone("b")) && s' == DoBuild(s, UnwindDone("b"))
    ensures JobAt(s', "b", Failed) && s'.m.jobs["b"].kind == s.m.jobs["b"].kind && s'.m.vms == s.m.vms && s'.range == s.range
    ensures s'.d.HostAt(s.m.vms["b"].addr) == JailLeft(q) && s'.d.parked == s.d.parked
  {
    s' := DoBuild(s, UnwindDone("b"));
  }

  lemma FailsUp(s: Node, q: Proc) returns (s': Node)
    requires Reachable(s) && JobAt(s, "b", Building) && s.m.jobs["b"].kind == Fresh(None)
    requires s.d.HostAt(s.m.vms["b"].addr) == UpHost(q) && q in s.d.alive
    ensures Reachable(s') && JobAt(s', "b", Unwinding) && s'.m.jobs["b"].kind == Fresh(None) && s'.m.vms == s.m.vms
    ensures s'.d == s.d.(alive := s.d.alive - {q}) && s'.range == s.range
  {
    var s1, s2 := FailsSteps(s, q);
    StepReaches(s, Build(BuildErr("b")));
    StepReaches(s1, Super(VmmDies(q)));
    s' := s2;
  }

  lemma LeavesJail(s: Node, q: Proc) returns (s': Node)
    requires Reachable(s) && JobAt(s, "b", Unwinding) && s.m.jobs["b"].kind == Fresh(None)
    requires s.d.HostAt(s.m.vms["b"].addr) == UpHost(q) && q !in s.d.alive
    ensures Reachable(s') && JobAt(s', "b", Failed) && s'.m.jobs["b"].kind == Fresh(None)
    ensures s'.range == s.range && s'.d.parked == s.d.parked && s'.m.vms == s.m.vms
    ensures s'.d.HostAt(s.m.vms["b"].addr) == JailLeft(q)
  {
    var s1, s2 := LeavesSteps(s, q);
    StepReaches(s, Build(Undo("b", Cgroup)));
    StepReaches(s1, Build(Undo("b", Netns)));
    var s3 := LeftSteps(s2, q);
    StepReaches(s2, Build(UnwindDone("b")));
    s' := s3;
  }

  lemma Reserves(s: Node) returns (s': Node)
    requires s.range == {2, 3} && s.d.apps == map[] && s.m.vms.Keys == {"a"} && s.m.vms["a"].Ended?
    ensures CanApi(s, ReserveStart("b", None, 3)) && s' == DoApi(s, ReserveStart("b", None, 3))
    ensures JobAt(s', "b", Entering) && s'.m.jobs["b"].kind == Fresh(None) && s'.m.vms["b"].addr == 3
    ensures s'.d == s.d && s'.range == s.range && s'.m.vms - {"b"} == s.m.vms
  {
    s' := DoApi(s, ReserveStart("b", None, 3));
  }

  /** A start of `b` fails with its rootfs in its jail, and the jail cannot be removed. */
  lemma LeftoverOnce(r: Route) returns (s: Node, q: Proc)
    ensures Reachable(s) && s.range == {2, 3} && s.m.vms == map["a" := Ended(Record(Reason.Parked, 0, Some(r)))]
    ensures s.d.parked == map["a" := SnapshotOf(0)] && s.d.HostAt(3) == JailLeft(q)
  {
    var s0 := ParkedOnce(r, true);
    var s1 := Reserves(s0);
    StepReaches(s0, Api(ReserveStart("b", None, 3)));
    q := s1.d.nextProc;
    var s2 := MakesVmm(s1, "b");
    var s3 := FailsUp(s2, q);
    assert s3.d.HostAt(3) == UpHost(q);
    var s4 := LeavesJail(s3, q);
    s := Takes(s4, Task(Forget("b")));
  }

  lemma BackSteps(s: Node, rec: Record, q: Proc) returns (s': Node)
    requires JobAt(s, "a", Building) && s.m.jobs["a"].kind == FromSnapshot(rec) && s.d.parked == map["a" := SnapshotOf(0)]
    requires s.d.HostAt(s.m.vms["a"].addr).jail == map[Rootfs := RootfsOf(q)]
    ensures CanBuild(s, BuildErr("a")) && s' == DoBuild(s, BuildErr("a"))
    ensures CanBuild(s', MoveBack("a", Rootfs)) && Wakeable(s', "a", 0) && s'.d == s.d && s'.m.vms == s.m.vms
  {
    s' := DoBuild(s, BuildErr("a"));
  }

  /** A wake at an address where a failed start could not remove its jail, and which fails before it moves its
      snapshot, puts back that start's rootfs over the snapshot's. */
  lemma LeftoverPutBack(r: Route) returns (s: Node)
    ensures Reachable(s) && Wakeable(s, "a", 0) && CanBuild(s, MoveBack("a", Rootfs))
    ensures !Wakeable(DoBuild(s, MoveBack("a", Rootfs)), "a", 0)
  {
    var s0, q := LeftoverOnce(r);
    var rec := Record(Reason.Parked, 0, Some(r));
    var s2 := WakesAt(s0, rec, 3);
    s := BackSteps(s2, rec, q);
    StepReaches(s2, Build(BuildErr("a")));
    assert s.d.DirAt("a")[Rootfs] == OfPark(0);
    MoveBackHarms(s, "a", Rootfs, 0);
  }
}
