/** What the Node agent promises, of every state of every run. */
module NodeTheorems {
  import opened Common
  import opened Registry
  import opened RegistryInvariant
  import opened RegistryRuns
  import opened Recovery

  /** A Node before its agent has ever run. */
  function NewNode(range: set<Addr>): Node {
    Node(range,
         Disk(map[], map[], map[], {}, map[], map[], 0, {}, {}, {}),
         Mem(map[], map[], map[], map[], map[], map[], 0, 0, 0))
  }

  ghost predicate IsRun(ss: seq<Node>, sts: seq<Step>) {
    && |ss| == |sts| + 1
    && ss[0] == NewNode(ss[0].range)
    && (forall i | 0 <= i < |sts| :: Can(ss[i], sts[i]) && ss[i + 1] == Do(ss[i], sts[i]))
  }

  lemma StepKeepsInv(s: Node, st: Step)
    requires Inv(s) && Can(s, st)
    ensures Inv(Do(s, st))
  {
    match st
    case Api(st) => ApiKeeps(s, st);
    case Build(st) => BuildKeeps(s, st);
    case Task(st) => TaskKeeps(s, st);
    case Super(st) => SupKeeps(s, st);
    case Parking(st) => ParkKeeps(s, st);
    case Edge(st) => EdgeKeeps(s, st);
    case Restart(repairs, stuck, to) =>
      CrashLeavesDiskInv(s);
      RepairsKeepDiskInv(s.range, AfterCrash(s), repairs);
      ReconcileRestores(s.range, RepairedAll(AfterCrash(s), repairs), stuck, to);
  }

  /** The invariant holds in every state of every run: any interleaving, any failures, any crashes. */
  lemma {:induction false} EveryStateSound(ss: seq<Node>, sts: seq<Step>, i: nat)
    requires IsRun(ss, sts) && i < |ss|
    ensures Inv(ss[i])
  {
    if i == 0 {
      var s := ss[0];
      forall n: Name ensures Local(CellAt(s, n)) { }
      assert EachName(s);
      assert Held(s.m.vms) == {};
    } else {
      EveryStateSound(ss, sts, i - 1);
      StepKeepsInv(ss[i - 1], sts[i - 1]);
    }
  }

  /** A number for each of the names, none of them twice. */
  ghost function Numbering(names: set<Name>): (num: map<Name, Inst>)
    ensures num.Keys == names
    ensures forall n | n in names :: num[n] < |names|
    ensures forall n1, n2 | n1 in names && n2 in names && num[n1] == num[n2] :: n1 == n2
    decreases names
  {
    if names == {} then map[]
    else
      var n :| n in names;
      var num := Numbering(names - {n});
      assert forall n' | n' in names :: n' == n || n' in names - {n};
      num[n := |names| - 1]
  }

  ghost function FreshLog(logs: set<Log>): (next: Log)
    ensures forall l | l in logs :: l < next
    decreases logs
  {
    if logs == {} then 0
    else
      var l :| l in logs;
      var next := FreshLog(logs - {l});
      assert forall l' | l' in logs :: l' == l || l' in logs - {l};
      if l < next then next else l + 1
  }

  ghost function RestoredEntry(d: Disk, n: Name, inst: Inst): (e: Entry)
    requires n in d.rows
    ensures Restored(d, n, e) && (e.Running? <==> LiveRow(d, n)) && (e.Running? ==> e.inst == inst)
  {
    match d.rows[n]
    case RowRunning(a, p, log, route) =>
      if p in d.alive then Running(a, log, route, inst) else Ended(Record(AgentDown, log, route))
    case RowEnded(rec) => Ended(rec)
  }

  lemma Reconcilable(range: set<Addr>, d: Disk, stuck: Stuck) returns (to: Node)
    ensures IsReconciled(range, d, stuck, to)
  {
    var num := Numbering(d.rows.Keys);
    var vms := map n | n in d.rows :: RestoredEntry(d, n, num[n]);
    var sups := map n | n in d.rows && LiveRow(d, n) :: Up([]);
    to := Node(range, ReconciledDisk(d, stuck),
               Mem(vms, map[], sups, map[], map[], map[], FreshLog(d.logs), |d.rows.Keys|, 0));
  }

  /** An agent that dies in any state at all, and again in mid-`reconcile`, can start again. */
  lemma AlwaysRestarts(s: Node, repairs: seq<Repair>, stuck: Stuck) returns (to: Node)
    requires CanRepairAll(AfterCrash(s), repairs)
    ensures Can(s, Restart(repairs, stuck, to)) && Do(s, Restart(repairs, stuck, to)) == to
    ensures IsReconciled(s.range, RepairedAll(AfterCrash(s), repairs), stuck, to)
  {
    to := Reconcilable(s.range, RepairedAll(AfterCrash(s), repairs), stuck);
  }

  // ------------------------------------------------- addresses and host state --

  /** No two Starting or Running VMs ever hold one address, and each comes from the VM range. */
  lemma AddressesExclusive(ss: seq<Node>, sts: seq<Step>, i: nat, n1: Name, n2: Name)
    requires IsRun(ss, sts) && i < |ss|
    requires n1 in ss[i].m.vms && n2 in ss[i].m.vms && ss[i].m.vms[n1].Holds() && ss[i].m.vms[n2].Holds()
    ensures ss[i].m.vms[n1].addr in ss[i].range
    ensures ss[i].m.vms[n1].addr == ss[i].m.vms[n2].addr ==> n1 == n2
  {
    EveryStateSound(ss, sts, i);
  }

  /** Every host object belongs to a held address, unless an undo step failed there; every VMM does. */
  lemma HostStateOwned(ss: seq<Node>, sts: seq<Step>, i: nat)
    requires IsRun(ss, sts) && i < |ss|
    ensures forall a | a in ss[i].d.host && a !in ss[i].d.leaked ::
      exists n :: n in ss[i].m.vms && ss[i].m.vms[n].Holds() && ss[i].m.vms[n].addr == a
    ensures forall p | p in ss[i].d.alive ::
      exists n :: n in ss[i].m.vms && ss[i].m.vms[n].Holds() && ss[i].m.vms[n].addr == ss[i].d.alive[p]
  {
    EveryStateSound(ss, sts, i);
    forall a | a in Held(ss[i].m.vms)
      ensures exists n :: n in ss[i].m.vms && ss[i].m.vms[n].Holds() && ss[i].m.vms[n].addr == a
    {
      var n :| n in ss[i].m.vms && ss[i].m.vms[n].Holds() && ss[i].m.vms[n].addr == a;
    }
  }

  /** The address a step hands out, if it hands one out. */
  function HandsOut(st: Step): Option<Addr> {
    match st
    case Api(ReserveStart(_, _, a)) => Some(a)
    case Api(ReserveWake(_, a)) => Some(a)
    case _ => None
  }

  /** An address is handed out only once its last VM's teardown has run: no VMM is left there,
      and no host object but what a failing undo step left. */
  lemma HandedOutOnceUnwound(ss: seq<Node>, sts: seq<Step>, i: nat)
    requires IsRun(ss, sts) && i < |sts| && HandsOut(sts[i]).Some?
    ensures var a := HandsOut(sts[i]).value;
            && (a in ss[i].d.host ==> a in ss[i].d.leaked)
            && (forall p | p in ss[i].d.alive :: ss[i].d.alive[p] != a)
  {
    EveryStateSound(ss, sts, i);
    assert HostOwned(ss[i].range, ss[i].d, Held(ss[i].m.vms));
    var a := HandsOut(sts[i]).value;
    assert a !in Held(ss[i].m.vms);
    forall p | p in ss[i].d.alive ensures ss[i].d.alive[p] != a {
      assert ProcOwned(ss[i].d, Held(ss[i].m.vms), p);
    }
  }

  /** A teardown that is over and has left something, or a `reconcile` that has. */
  ghost predicate UndoFails(s: Node, st: Step)
    requires Can(s, st)
  {
    match st
    case Build(UnwindDone(n)) => s.d.HostAt(s.m.vms[n].addr).objs != {}
    case Super(SupGone(n)) => s.d.HostAt(s.m.vms[n].addr).objs != {}
    case Restart(repairs, stuck, to) => ReconciledLeaks(RepairedAll(AfterCrash(s), repairs), stuck) != {}
    case _ => false
  }

  /** The name holds the address, and its teardown is not over. */
  predicate Using(s: Node, n: Name, a: Addr) {
    && n in s.m.vms && s.m.vms[n].Holds() && s.m.vms[n].addr == a
    && !(n in s.m.jobs && (s.m.jobs[n].pc.Failed? || s.m.jobs[n].pc.Destroyed? || s.m.jobs[n].pc.Marked?))
    && !(n in s.m.sups && s.m.sups[n].Gone?)
  }

  /** Every host object is of a VM that is starting, running or being torn down. */
  ghost predicate Clean(s: Node) { forall a | a in s.d.host :: exists n :: Using(s, n, a) }

  lemma ApiLeavesLeaks(s: Node, st: ApiStep)
    requires CanApi(s, st)
    ensures DoApi(s, st).d.leaked == s.d.leaked
  {
  }

  lemma BuildLeaks(s: Node, st: BuildStep)
    requires CanBuild(s, st) && s.d.leaked == {}
    ensures DoBuild(s, st).d.leaked ==
      if st.UnwindDone? && s.d.HostAt(s.m.vms[st.n].addr).objs != {} then {s.m.vms[st.n].addr} else {}
  {
  }

  lemma TaskLeavesLeaks(s: Node, st: TaskStep)
    requires CanTask(s, st)
    ensures DoTask(s, st).d.leaked == s.d.leaked
  {
  }

  lemma SupLeaks(s: Node, st: SupStep)
    requires CanSup(s, st) && s.d.leaked == {}
    ensures DoSup(s, st).d.leaked ==
      if st.SupGone? && s.d.HostAt(s.m.vms[st.n].addr).objs != {} then {s.m.vms[st.n].addr} else {}
  {
  }

  lemma LeaksExactly(s: Node, st: Step)
    requires Can(s, st) && s.d.leaked == {}
    ensures Do(s, st).d.leaked == {} <==> !UndoFails(s, st)
  {
    match st
    case Api(st) => ApiLeavesLeaks(s, st);
    case Build(st) => BuildLeaks(s, st);
    case Task(st) => TaskLeavesLeaks(s, st);
    case Super(st) => SupLeaks(s, st);
    case _ =>
  }

  lemma CleanWithoutLeaks(s: Node)
    requires Inv(s) && s.d.leaked == {}
    ensures Clean(s)
  {
    forall a | a in s.d.host ensures exists n :: Using(s, n, a) {
      assert a in Held(s.m.vms);
      var n :| n in s.m.vms && s.m.vms[n].Holds() && s.m.vms[n].addr == a;
      assert Hosted(CellAt(s, n)) by { assert Local(CellAt(s, n)); }
      assert Using(s, n, a);
    }
  }

  /** What a teardown left is seen: nobody uses it. */
  lemma LeftIsUnused(s: Node, n: Name, a: Addr)
    requires Exclusive(s.m.vms) && n in s.m.vms && s.m.vms[n].Holds() && s.m.vms[n].addr == a && a in s.d.host
    requires !Using(s, n, a)
    ensures !Clean(s)
  {
    forall n' ensures !Using(s, n', a) { }
  }

  lemma StuckShows(range: set<Addr>, d: Disk, stuck: Stuck, to: Node)
    requires DiskInv(range, d) && IsReconciled(range, d, stuck, to) && ReconciledLeaks(d, stuck) != {}
    ensures !Clean(to)
  {
    RestoredHeld(range, d, stuck, to);
    var a :| a in ReconciledLeaks(d, stuck);
    assert a in to.d.host && a !in Held(to.m.vms);
    forall n ensures !Using(to, n, a) { if Using(to, n, a) { HoldsIt(to.m.vms, n); } }
  }

  lemma UndoFailsShows(s: Node, st: Step)
    requires Inv(s) && Can(s, st) && UndoFails(s, st)
    ensures !Clean(Do(s, st))
  {
    match st
    case Build(UnwindDone(n)) => LeftIsUnused(Do(s, st), n, s.m.vms[n].addr);
    case Super(SupGone(n)) => LeftIsUnused(Do(s, st), n, s.m.vms[n].addr);
    case Restart(repairs, stuck, to) =>
      CrashLeavesDiskInv(s);
      RepairsKeepDiskInv(s.range, AfterCrash(s), repairs);
      StuckShows(s.range, RepairedAll(AfterCrash(s), repairs), stuck, to);
  }

  lemma CleanStep(s: Node, st: Step)
    requires Inv(s) && Can(s, st) && s.d.leaked == {}
    ensures Clean(Do(s, st)) <==> !UndoFails(s, st)
    ensures !UndoFails(s, st) ==> Do(s, st).d.leaked == {}
  {
    LeaksExactly(s, st);
    if UndoFails(s, st) {
      UndoFailsShows(s, st);
    } else {
      StepKeepsInv(s, st);
      CleanWithoutLeaks(Do(s, st));
    }
  }

  ghost predicate NoUndoFails(ss: seq<Node>, sts: seq<Step>, i: nat)
    requires IsRun(ss, sts) && i < |ss|
  {
    i > 0 ==> NoUndoFails(ss, sts, i - 1) && !UndoFails(ss[i - 1], sts[i - 1])
  }

  ghost predicate AllClean(ss: seq<Node>, i: nat)
    requires i < |ss|
  {
    Clean(ss[i]) && (i > 0 ==> AllClean(ss, i - 1))
  }

  /** Over any run, host state is always of a VM that is starting, running or being torn down, if and only if
      no teardown and no `reconcile` was over with something left. */
  lemma {:induction false} CleanExactly(ss: seq<Node>, sts: seq<Step>, i: nat)
    requires IsRun(ss, sts) && i < |ss|
    ensures AllClean(ss, i) <==> NoUndoFails(ss, sts, i)
    ensures NoUndoFails(ss, sts, i) ==> ss[i].d.leaked == {}
  {
    if i == 0 {
      EveryStateSound(ss, sts, 0);
      CleanWithoutLeaks(ss[0]);
    } else {
      CleanExactly(ss, sts, i - 1);
      if NoUndoFails(ss, sts, i - 1) {
        EveryStateSound(ss, sts, i - 1);
        CleanStep(ss[i - 1], sts[i - 1]);
      }
    }
  }

  /** So, undo steps succeeding, an address is handed out only when nothing at all is left there. */
  lemma HandedOutClean(ss: seq<Node>, sts: seq<Step>, i: nat)
    requires IsRun(ss, sts) && i < |sts| && HandsOut(sts[i]).Some? && NoUndoFails(ss, sts, i)
    ensures HandsOut(sts[i]).value !in ss[i].d.host
    ensures forall p | p in ss[i].d.alive :: ss[i].d.alive[p] != HandsOut(sts[i]).value
  {
    CleanExactly(ss, sts, i);
    HandedOutOnceUnwound(ss, sts, i);
  }

  // ------------------------------------------------------- registry and store --

  /** The entry and the row of a name say the same. */
  predicate SaySame(s: Node, n: Name) {
    if n in s.m.vms then
      n in s.d.rows &&
      match s.m.vms[n]
      case Ended(rec) => s.d.rows[n] == RowEnded(rec)
      case Running(a, log, route, _) =>
        s.d.rows[n].RowRunning? && s.d.rows[n] == RowRunning(a, s.d.rows[n].proc, log, route)
      case Starting(_, _, _) => false
    else n !in s.d.rows
  }

  /** The database was last asked to record the name's end, and refused. */
  predicate LastRefused(sts: seq<Step>, i: nat, n: Name)
    requires i <= |sts|
  {
    i > 0 &&
    match sts[i - 1]
    case Super(RecordEnd(n', ok)) => if n' == n then !ok else LastRefused(sts, i - 1, n)
    case Task(MarkForced(n', ok)) => if n' == n then !ok else LastRefused(sts, i - 1, n)
    case Task(Insert(n', ok)) => if n' == n && ok then false else LastRefused(sts, i - 1, n)
    case Api(Remove(n')) => if n' == n then false else LastRefused(sts, i - 1, n)
    case Restart(_, _, _) => false
    case _ => LastRefused(sts, i - 1, n)
  }

  lemma StaleAfter(s: Node, st: Step, n: Name)
    requires Can(s, st)
    ensures n in Do(s, st).d.stale <==>
      match st
      case Super(RecordEnd(n', ok)) => if n' == n then !ok else n in s.d.stale
      case Task(MarkForced(n', ok)) => if n' == n then !ok else n in s.d.stale
      case Task(Insert(n', ok)) => if n' == n && ok then false else n in s.d.stale
      case Api(Remove(n')) => if n' == n then false else n in s.d.stale
      case Restart(_, _, _) => false
      case _ => n in s.d.stale
  {
    match st
    case Api(st) => ApiStales(s, st, n);
    case Build(st) => BuildStales(s, st);
    case Task(st) => TaskStales(s, st, n);
    case Super(st) => SupStales(s, st, n);
    case _ =>
  }

  lemma ApiStales(s: Node, st: ApiStep, n: Name)
    requires CanApi(s, st)
    ensures n in DoApi(s, st).d.stale <==> n in s.d.stale && st != Remove(n)
  {
  }

  lemma BuildStales(s: Node, st: BuildStep)
    requires CanBuild(s, st)
    ensures DoBuild(s, st).d.stale == s.d.stale
  {
  }

  lemma TaskStales(s: Node, st: TaskStep, n: Name)
    requires CanTask(s, st)
    ensures n in DoTask(s, st).d.stale <==>
      if st.MarkForced? && st.n == n then !st.ok else n in s.d.stale && st != Insert(n, true)
  {
  }

  lemma SupStales(s: Node, st: SupStep, n: Name)
    requires CanSup(s, st)
    ensures n in DoSup(s, st).d.stale <==> if st.RecordEnd? && st.n == n then !st.ok else n in s.d.stale
  {
  }

  lemma {:induction false} StaleIs(ss: seq<Node>, sts: seq<Step>, i: nat, n: Name)
    requires IsRun(ss, sts) && i < |ss|
    ensures n in ss[i].d.stale <==> LastRefused(sts, i, n)
  {
    if i > 0 {
      StaleIs(ss, sts, i - 1, n);
      StaleAfter(ss[i - 1], sts[i - 1], n);
    }
  }

  /** While no start or wake of a name is under way its row says what its entry says, if and only if the
      database did not refuse when it was last asked to record the name's end. */
  lemma RegistryAndStoreAgree(ss: seq<Node>, sts: seq<Step>, i: nat, n: Name)
    requires IsRun(ss, sts) && i < |ss|
    requires n !in ss[i].m.jobs
    ensures SaySame(ss[i], n) <==> !LastRefused(sts, i, n)
  {
    EveryStateSound(ss, sts, i);
    StaleIs(ss, sts, i, n);
    assert Local(CellAt(ss[i], n));
  }

  /** During a start or wake the row stays what a failure would put back, until `insert_running` commits. */
  lemma RowWaitsForInsert(ss: seq<Node>, sts: seq<Step>, i: nat, n: Name)
    requires IsRun(ss, sts) && i < |ss|
    requires n in ss[i].m.jobs && !LastRefused(sts, i, n) && !ss[i].m.jobs[n].pc.Marked?
    ensures n in ss[i].m.vms && ss[i].m.vms[n].Starting?
    ensures var job := ss[i].m.jobs[n];
            if job.pc.Recorded? || job.pc.Tidied? then
              Get(ss[i].d.rows, n) == Some(RowRunning(ss[i].m.vms[n].addr, job.pc.proc, ss[i].m.vms[n].log, ss[i].m.vms[n].route))
            else match job.kind.PutBack()
              case Some(rec) => Get(ss[i].d.rows, n) == Some(RowEnded(rec))
              case None => n !in ss[i].d.rows
  {
    EveryStateSound(ss, sts, i);
    StaleIs(ss, sts, i, n);
    assert Local(CellAt(ss[i], n));
  }
}
