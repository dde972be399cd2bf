/** What the agent's operations come to, from the step that begins each to the step that ends it. */
module Outcomes {
  import opened Common
  import opened Registry
  import opened RegistryInvariant
  import opened RegistryRuns
  import opened NodeTheorems

  // --------------------------------------------------------------- rm and Apps --

  /** What a Node has under one name. */
  datatype Under = Under(entry: Option<Entry>, row: Option<Row>, dir: Option<Dir>, app: Option<string>)

  function UnderName(s: Node, n: Name): Under {
    Under(Get(s.m.vms, n), Get(s.d.rows, n), Get(s.d.parked, n), Get(s.d.apps, n))
  }

  /** An rm leaves nothing of the VM, and all there is of everything else. */
  lemma RemoveExactly(s: Node, n: Name, n': Name, l: Log)
    requires Inv(s) && CanApi(s, Remove(n))
    ensures var s' := DoApi(s, Remove(n));
            && UnderName(s', n).entry == None && UnderName(s', n).row == None && UnderName(s', n).app == None
            && UnderName(s', n).dir == (if s.m.vms[n].Parked() then None else UnderName(s, n).dir)
            && (n' != n ==> UnderName(s', n') == UnderName(s, n'))
            && (l in s'.d.logs <==> l in s.d.logs && l != s.m.vms[n].rec.log)
            && s'.d.host == s.d.host && s'.d.alive == s.d.alive && s'.m == s.m.(vms := s'.m.vms)
  {
    assert n in s.m.vms.Keys && n !in s.d.apps.Keys;
  }

  /** Adding or removing a Machine-backed App changes that App and nothing else. */
  lemma AppsExactly(s: Node, st: ApiStep, n: Name)
    requires CanApi(s, st) && (st.AddApp? || st.RemoveApp?)
    ensures var s' := DoApi(s, st);
            && Get(s'.d.apps, n) == (if n != st.n then Get(s.d.apps, n) else if st.AddApp? then Some(st.host) else None)
            && s' == s.(d := s.d.(apps := s'.d.apps))
  {
  }

  // ------------------------------------------------------------- run and wake --

  /** How far a start or a wake has come: its VM is still to come up, has come up, is on record, or could not be
      recorded. */
  datatype Phase = Coming | Came | Kept | Unkept

  function PhaseOf(pc: Pc): Phase {
    match pc
    case Built(_) => Came
    case Recorded(_) => Kept
    case Tidied(_) => Kept
    case Unrecorded => Unkept
    case Destroyed => Unkept
    case Marked => Unkept
    case _ => Coming
  }

  /** How far the steps of a run say that it has come. */
  function PhaseAfter(phase: Phase, st: Step, n: Name): Phase {
    if st == Build(BuildOk(n)) then Came
    else if st == Task(Insert(n, true)) then Kept
    else if st == Task(Insert(n, false)) then Unkept
    else phase
  }

  function PhaseIn(sts: seq<Step>, n: Name): Phase {
    if sts == [] then Coming else PhaseAfter(PhaseIn(sts[..|sts| - 1], n), sts[|sts| - 1], n)
  }

  /** The task of `n` goes on. */
  predicate GoesOn(s: Node, st: Step, s': Node, n: Name)
    requires n in s.m.jobs
  {
    && n in s'.m.jobs && Get(s'.m.vms, n) == Get(s.m.vms, n) && s'.m.jobs[n].kind == s.m.jobs[n].kind
    && PhaseOf(s'.m.jobs[n].pc) == PhaseAfter(PhaseOf(s.m.jobs[n].pc), st, n)
  }

  /** What the task of a Starting VM leaves under its name. */
  function EntryAfter(e: Entry, kind: Kind, phase: Phase, inst: Inst): Option<Entry>
    requires e.Starting?
  {
    if phase.Kept? then Some(Running(e.addr, e.log, e.route, inst))
    else match kind
      case Fresh(replaced) => if replaced.Some? then Some(Ended(replaced.value)) else None
      case FromSnapshot(from) => Some(Ended(if phase.Unkept? then from.(reason := Forced) else from))
  }

  /** The task of `n` is done. */
  predicate Settles(s: Node, s': Node, n: Name)
    requires n in s.m.jobs
  {
    && n !in s'.m.jobs && n in s.m.vms && s.m.vms[n].Starting?
    && !PhaseOf(s.m.jobs[n].pc).Came?
    && Get(s'.m.vms, n) == EntryAfter(s.m.vms[n], s.m.jobs[n].kind, PhaseOf(s.m.jobs[n].pc), s.m.nextInst)
  }

  lemma ApiGoesOn(s: Node, st: ApiStep, n: Name)
    requires Shaped(CellAt(s, n)) && n in s.m.jobs && CanApi(s, st)
    ensures GoesOn(s, Api(st), DoApi(s, st), n)
  {
  }

  lemma BuildGoesOn(s: Node, st: BuildStep, n: Name)
    requires n in s.m.jobs && CanBuild(s, st)
    ensures GoesOn(s, Build(st), DoBuild(s, st), n)
  {
  }

  predicate EndsTask(st: TaskStep, n: Name) {
    st == Forget(n) || st == PutBackParked(n) || st == EndForced(n) || st == Supervise(n)
  }

  lemma OwnTaskGoesOn(s: Node, st: TaskStep, n: Name)
    requires n in s.m.jobs && CanTask(s, st) && TaskName(st) == Some(n) && !EndsTask(st, n)
    ensures GoesOn(s, Task(st), DoTask(s, st), n)
  {
  }

  lemma TaskGoesOn(s: Node, st: TaskStep, n: Name)
    requires n in s.m.jobs && CanTask(s, st) && !EndsTask(st, n)
    ensures GoesOn(s, Task(st), DoTask(s, st), n)
  {
    if TaskName(st) == Some(n) { OwnTaskGoesOn(s, st, n); }
  }

  lemma TaskSettles(s: Node, st: TaskStep, n: Name)
    requires Shaped(CellAt(s, n)) && n in s.m.jobs && CanTask(s, st) && EndsTask(st, n)
    ensures Settles(s, DoTask(s, st), n)
  {
  }

  lemma SupGoesOn(s: Node, st: SupStep, n: Name)
    requires Shaped(CellAt(s, n)) && n in s.m.jobs && CanSup(s, st)
    ensures GoesOn(s, Super(st), DoSup(s, st), n)
  {
    SupFrame(s, st);
  }

  lemma ParkGoesOn(s: Node, st: ParkStep, n: Name)
    requires n in s.m.jobs && CanPark(s, st)
    ensures GoesOn(s, Parking(st), DoPark(s, st), n)
  {
  }

  lemma EdgeGoesOn(s: Node, st: EdgeStep, n: Name)
    requires n in s.m.jobs && CanEdge(s, st)
    ensures GoesOn(s, Edge(st), DoEdge(s, st), n)
  {
    EdgeFrame(s, st);
  }

  lemma StepGoesOn(s: Node, st: Step, n: Name)
    requires Inv(s) && Can(s, st) && !st.Restart? && n in s.m.jobs
    ensures GoesOn(s, st, Do(s, st), n) || Settles(s, Do(s, st), n)
  {
    assert Local(CellAt(s, n));
    match st
    case Api(st) => ApiGoesOn(s, st, n);
    case Build(st) => BuildGoesOn(s, st, n);
    case Task(st) => if EndsTask(st, n) { TaskSettles(s, st, n); } else { TaskGoesOn(s, st, n); }
    case Super(st) => SupGoesOn(s, st, n);
    case Parking(st) => ParkGoesOn(s, st, n);
    case Edge(st) => EdgeGoesOn(s, st, n);
  }

  /** The task that the step at `i` begins is the one at work up to the state at `j`. */
  ghost predicate AtWork(ss: seq<Node>, sts: seq<Step>, i: nat, j: nat, n: Name) {
    IsRun(ss, sts) && i < j < |sts| && !sts[j].Restart? && forall k | i < k <= j :: n in ss[k].m.jobs
  }

  lemma GoesOnAt(ss: seq<Node>, sts: seq<Step>, i: nat, j: nat, n: Name, k: nat)
    requires AtWork(ss, sts, i, j, n) && i < k < j
    ensures GoesOn(ss[k], sts[k], ss[k + 1], n)
  {
    EveryStateSound(ss, sts, k);
    assert n in ss[k].m.jobs && n in ss[k + 1].m.jobs;
    if !sts[k].Restart? { StepGoesOn(ss[k], sts[k], n); }
  }

  /** The tasks of some states in a row are one task. */
  ghost predicate OneTask(ss: seq<Node>, sts: seq<Step>, n: Name) {
    && |ss| == |sts| + 1 && n in ss[0].m.jobs
    && (forall k | 0 <= k < |sts| :: n in ss[k].m.jobs && GoesOn(ss[k], sts[k], ss[k + 1], n))
  }

  lemma {:induction false} WorksOn(ss: seq<Node>, sts: seq<Step>, n: Name)
    requires OneTask(ss, sts, n) && PhaseOf(ss[0].m.jobs[n].pc) == Coming
    ensures var last := ss[|sts|];
            && n in last.m.jobs && Get(last.m.vms, n) == Get(ss[0].m.vms, n)
            && last.m.jobs[n].kind == ss[0].m.jobs[n].kind && PhaseOf(last.m.jobs[n].pc) == PhaseIn(sts, n)
    decreases |sts|
  {
    if sts != [] {
      var k := |sts| - 1;
      WorksOn(ss[..k + 1], sts[..k], n);
      assert GoesOn(ss[k], sts[k], ss[k + 1], n);
    }
  }

  lemma AtWorkAsOne(ss: seq<Node>, sts: seq<Step>, i: nat, j: nat, n: Name)
    requires AtWork(ss, sts, i, j, n)
    ensures OneTask(ss[i + 1..j + 1], sts[i + 1..j], n)
  {
    forall k | i < k < j ensures n in ss[k].m.jobs && GoesOn(ss[k], sts[k], ss[k + 1], n) {
      GoesOnAt(ss, sts, i, j, n, k);
    }
  }

  lemma WorkSoFar(ss: seq<Node>, sts: seq<Step>, i: nat, j: nat, n: Name)
    requires AtWork(ss, sts, i, j, n) && PhaseOf(ss[i + 1].m.jobs[n].pc) == Coming
    ensures Get(ss[j].m.vms, n) == Get(ss[i + 1].m.vms, n) && ss[j].m.jobs[n].kind == ss[i + 1].m.jobs[n].kind
    ensures PhaseOf(ss[j].m.jobs[n].pc) == PhaseIn(sts[i + 1..j], n)
  {
    AtWorkAsOne(ss, sts, i, j, n);
    WorksOn(ss[i + 1..j + 1], sts[i + 1..j], n);
  }

  lemma WorkLeaves(ss: seq<Node>, sts: seq<Step>, i: nat, j: nat, n: Name)
    requires AtWork(ss, sts, i, j, n) && n !in ss[j + 1].m.jobs && PhaseOf(ss[i + 1].m.jobs[n].pc) == Coming
    ensures n in ss[i + 1].m.vms && ss[i + 1].m.vms[n].Starting?
    ensures Get(ss[j + 1].m.vms, n) ==
      EntryAfter(ss[i + 1].m.vms[n], ss[i + 1].m.jobs[n].kind, PhaseIn(sts[i + 1..j], n), ss[j].m.nextInst)
    ensures !PhaseIn(sts[i + 1..j], n).Came?
  {
    WorkSoFar(ss, sts, i, j, n);
    EveryStateSound(ss, sts, j);
    StepGoesOn(ss[j], sts[j], n);
  }

  /** A start ends with its VM running, as asked and on a new log, exactly when it came up and could be recorded,
      and otherwise with what the name had before. */
  lemma StartOutcome(ss: seq<Node>, sts: seq<Step>, i: nat, j: nat, n: Name, route: Option<Route>, a: Addr)
    requires AtWork(ss, sts, i, j, n) && n !in ss[j + 1].m.jobs && sts[i] == Api(ReserveStart(n, route, a))
    ensures Get(ss[j + 1].m.vms, n) ==
      if PhaseIn(sts[i + 1..j], n).Kept? then Some(Running(a, ss[i].m.nextLog, route, ss[j].m.nextInst))
      else Get(ss[i].m.vms, n)
  {
    assert Can(ss[i], sts[i]) && ss[i + 1] == DoReserveStart(ss[i], n, route, a);
    WorkLeaves(ss, sts, i, j, n);
  }

  /** A wake ends with its VM running, with the log and route it was parked with, exactly when it came up and could
      be recorded; with the VM parked as it was when it did not come up; and else as a forced end. */
  lemma WakeOutcome(ss: seq<Node>, sts: seq<Step>, i: nat, j: nat, n: Name, a: Addr)
    requires AtWork(ss, sts, i, j, n) && n !in ss[j + 1].m.jobs && sts[i] == Api(ReserveWake(n, a))
    ensures n in ss[i].m.vms && ss[i].m.vms[n].Parked()
    ensures var rec := ss[i].m.vms[n].rec;
            Get(ss[j + 1].m.vms, n) == Some(
              match PhaseIn(sts[i + 1..j], n)
              case Kept => Running(a, rec.log, rec.route, ss[j].m.nextInst)
              case Unkept => Ended(rec.(reason := Forced))
              case _ => ss[i].m.vms[n])
  {
    assert Can(ss[i], sts[i]) && ss[i + 1] == DoReserveWake(ss[i], n, a);
    WorkLeaves(ss, sts, i, j, n);
  }

  // -------------------------------------------------------------- the end of a VM --

  function ReasonOf(sup: Sup): Option<Reason> { if sup.Down? || sup.Gone? then Some(sup.reason) else None }

  /** Why the steps of a run say that the VM ends. */
  function ReasonAfter(why: Option<Reason>, st: Step, n: Name): Option<Reason> {
    match st
    case Super(SupEnd(n', reason)) => if n' == n then Some(reason) else why
    case Super(ParkOk(n')) => if n' == n then Some(Reason.Parked) else why
    case Super(ParkLost(n', _)) => if n' == n then Some(Forced) else why
    case _ => why
  }

  function ReasonIn(sts: seq<Step>, n: Name): Option<Reason> {
    if sts == [] then None else ReasonAfter(ReasonIn(sts[..|sts| - 1], n), sts[|sts| - 1], n)
  }

  predicate RunsOn(s: Node, st: Step, s': Node, n: Name)
    requires n in s.m.sups
  {
    && n in s'.m.sups && Get(s'.m.vms, n) == Get(s.m.vms, n)
    && ReasonOf(s'.m.sups[n]) == ReasonAfter(ReasonOf(s.m.sups[n]), st, n)
  }

  /** The VM's end is in the table, and in the database if that took it. */
  predicate EndsAs(s: Node, st: Step, s': Node, n: Name)
    requires n in s.m.sups
  {
    && n !in s'.m.sups && n in s.m.vms && s.m.vms[n].Running? && ReasonOf(s.m.sups[n]).Some?
    && st.Super? && st.sup.RecordEnd? && st.sup.n == n
    && var rec := Record(ReasonOf(s.m.sups[n]).value, s.m.vms[n].log, s.m.vms[n].route);
       && Get(s'.m.vms, n) == Some(Ended(rec))
       && Get(s'.d.rows, n) == if st.sup.ok then Some(RowEnded(rec)) else Get(s.d.rows, n)
  }

  lemma SupRunsOn(s: Node, st: SupStep, n: Name)
    requires Shaped(CellAt(s, n)) && RowAgrees(CellAt(s, n)) && n in s.m.sups && CanSup(s, st)
    ensures RunsOn(s, Super(st), DoSup(s, st), n) || EndsAs(s, Super(st), DoSup(s, st), n)
  {
  }

  lemma ApiRunsOn(s: Node, st: ApiStep, n: Name)
    requires Shaped(CellAt(s, n)) && n in s.m.sups && CanApi(s, st)
    ensures RunsOn(s, Api(st), DoApi(s, st), n)
  {
  }

  lemma BuildRunsOn(s: Node, st: BuildStep, n: Name)
    requires n in s.m.sups && CanBuild(s, st)
    ensures RunsOn(s, Build(st), DoBuild(s, st), n)
  {
    BuildFrame(s, st);
  }

  lemma TaskRunsOn(s: Node, st: TaskStep, n: Name)
    requires Shaped(CellAt(s, n)) && n in s.m.sups && CanTask(s, st)
    ensures RunsOn(s, Task(st), DoTask(s, st), n)
  {
  }

  lemma ParkRunsOn(s: Node, st: ParkStep, n: Name)
    requires n in s.m.sups && CanPark(s, st)
    ensures RunsOn(s, Parking(st), DoPark(s, st), n)
  {
  }

  lemma EdgeRunsOn(s: Node, st: EdgeStep, n: Name)
    requires n in s.m.sups && CanEdge(s, st)
    ensures RunsOn(s, Edge(st), DoEdge(s, st), n)
  {
    EdgeFrame(s, st);
  }

  ghost predicate Supervised(ss: seq<Node>, sts: seq<Step>, i: nat, j: nat, n: Name) {
    IsRun(ss, sts) && i <= j < |sts| && forall k | i <= k <= j :: !sts[k].Restart? && n in ss[k].m.sups
  }

  lemma StepRunsOn(s: Node, st: Step, n: Name)
    requires Inv(s) && Can(s, st) && !st.Restart? && n in s.m.sups
    ensures RunsOn(s, st, Do(s, st), n) || EndsAs(s, st, Do(s, st), n)
  {
    assert Local(CellAt(s, n));
    match st
    case Api(st) => ApiRunsOn(s, st, n);
    case Build(st) => BuildRunsOn(s, st, n);
    case Task(st) => TaskRunsOn(s, st, n);
    case Super(st) => SupRunsOn(s, st, n);
    case Parking(st) => ParkRunsOn(s, st, n);
    case Edge(st) => EdgeRunsOn(s, st, n);
  }

  lemma RunsOnAt(ss: seq<Node>, sts: seq<Step>, i: nat, j: nat, n: Name, k: nat)
    requires Supervised(ss, sts, i, j, n) && i <= k < j
    ensures RunsOn(ss[k], sts[k], ss[k + 1], n)
  {
    EveryStateSound(ss, sts, k);
    assert n in ss[k].m.sups && n in ss[k + 1].m.sups;
    StepRunsOn(ss[k], sts[k], n);
  }

  /** The supervisors of some states in a row are one supervisor. */
  ghost predicate OneSupervisor(ss: seq<Node>, sts: seq<Step>, n: Name) {
    && |ss| == |sts| + 1 && n in ss[0].m.sups
    && (forall k | 0 <= k < |sts| :: n in ss[k].m.sups && RunsOn(ss[k], sts[k], ss[k + 1], n))
  }

  lemma {:induction false} StaysUp(ss: seq<Node>, sts: seq<Step>, n: Name)
    requires OneSupervisor(ss, sts, n) && ReasonOf(ss[0].m.sups[n]).None?
    ensures var last := ss[|sts|];
            n in last.m.sups && Get(last.m.vms, n) == Get(ss[0].m.vms, n) && ReasonOf(last.m.sups[n]) == ReasonIn(sts, n)
    decreases |sts|
  {
    if sts != [] {
      var k := |sts| - 1;
      StaysUp(ss[..k + 1], sts[..k], n);
      assert RunsOn(ss[k], sts[k], ss[k + 1], n);
    }
  }

  lemma SupervisedByOne(ss: seq<Node>, sts: seq<Step>, i: nat, j: nat, n: Name)
    requires Supervised(ss, sts, i, j, n)
    ensures OneSupervisor(ss[i..j + 1], sts[i..j], n)
  {
    forall k | i <= k < j ensures n in ss[k].m.sups && RunsOn(ss[k], sts[k], ss[k + 1], n) {
      RunsOnAt(ss, sts, i, j, n, k);
    }
  }

  lemma UpSoFar(ss: seq<Node>, sts: seq<Step>, i: nat, j: nat, n: Name)
    requires Supervised(ss, sts, i, j, n) && ReasonOf(ss[i].m.sups[n]).None?
    ensures Get(ss[j].m.vms, n) == Get(ss[i].m.vms, n) && ReasonOf(ss[j].m.sups[n]) == ReasonIn(sts[i..j], n)
  {
    SupervisedByOne(ss, sts, i, j, n);
    StaysUp(ss[i..j + 1], sts[i..j], n);
  }

  /** A VM's record says why it ended: parked exactly when a park of it was kept last, and else what its supervisor
      found or did; its log and route are those it ran with. */
  lemma EndOutcome(ss: seq<Node>, sts: seq<Step>, i: nat, j: nat, n: Name)
    requires Supervised(ss, sts, i, j, n) && ReasonOf(ss[i].m.sups[n]).None? && n !in ss[j + 1].m.sups
    ensures n in ss[i].m.vms && ss[i].m.vms[n].Running? && ReasonIn(sts[i..j], n).Some?
    ensures var rec := Record(ReasonIn(sts[i..j], n).value, ss[i].m.vms[n].log, ss[i].m.vms[n].route);
            && Get(ss[j + 1].m.vms, n) == Some(Ended(rec))
            && (sts[j] == Super(RecordEnd(n, true)) ==> Get(ss[j + 1].d.rows, n) == Some(RowEnded(rec)))
  {
    UpSoFar(ss, sts, i, j, n);
    EveryStateSound(ss, sts, j);
    StepRunsOn(ss[j], sts[j], n);
  }

  // --------------------------------------------------------------- what is left --

  /** Some VM, or what a failed start would put back, has the log, or a task is about to remove it. */
  ghost predicate LogOwned(m: Mem, l: Log) {
    (exists n :: UsesLog(m, n, l)) || (exists t :: t in m.tails && m.tails[t] == Some(l))
  }

  lemma ApiOwnsLogs(s: Node, st: ApiStep, l: Log)
    requires EachName(s) && CanApi(s, st) && l in DoApi(s, st).d.logs && (l in s.d.logs ==> LogOwned(s.m, l))
    ensures LogOwned(DoApi(s, st).m, l)
  {
    var m' := DoApi(s, st).m;
    if n :| UsesLog(s.m, n, l) {
      assert Local(CellAt(s, n));
      assert UsesLog(m', n, l);
    } else {
      var t :| t in s.m.tails && s.m.tails[t] == Some(l);
      assert t in m'.tails && m'.tails[t] == Some(l);
    }
  }

  lemma BuildOwnsLogs(s: Node, st: BuildStep, l: Log)
    requires CanBuild(s, st) && l in DoBuild(s, st).d.logs && (l in s.d.logs ==> LogOwned(s.m, l))
    ensures LogOwned(DoBuild(s, st).m, l)
  {
    var m' := DoBuild(s, st).m;
    if l !in s.d.logs {
      assert UsesLog(m', st.n, l);
    } else if n :| UsesLog(s.m, n, l) {
      assert UsesLog(m', n, l);
    } else {
      var t :| t in s.m.tails && s.m.tails[t] == Some(l);
      assert t in m'.tails && m'.tails[t] == Some(l);
    }
  }

  lemma OthersUseLogs(s: Node, st: TaskStep, n: Name, l: Log)
    requires CanTask(s, st) && TaskName(st) != Some(n) && UsesLog(s.m, n, l)
    ensures UsesLog(DoTask(s, st).m, n, l)
  {
  }

  lemma TaskOwnsUsed(s: Node, st: TaskStep, n: Name, l: Log)
    requires Shaped(CellAt(s, n)) && CanTask(s, st) && l in DoTask(s, st).d.logs && UsesLog(s.m, n, l)
    requires TaskName(st) == Some(n)
    ensures UsesLog(DoTask(s, st).m, n, l) || DoTask(s, st).m.tails == s.m.tails[s.m.nextTail := Some(l)]
  {
  }

  lemma TaskOwnsTail(s: Node, st: TaskStep, t: nat, l: Log)
    requires Numbered(s.m) && CanTask(s, st) && l in DoTask(s, st).d.logs && t in s.m.tails && s.m.tails[t] == Some(l)
    ensures t in DoTask(s, st).m.tails && DoTask(s, st).m.tails[t] == Some(l)
  {
  }

  lemma TaskOwnsLogs(s: Node, st: TaskStep, l: Log)
    requires EachName(s) && Numbered(s.m) && CanTask(s, st) && l in DoTask(s, st).d.logs && (l in s.d.logs ==> LogOwned(s.m, l))
    ensures LogOwned(DoTask(s, st).m, l)
  {
    var m' := DoTask(s, st).m;
    if n :| UsesLog(s.m, n, l) {
      assert Local(CellAt(s, n));
      if TaskName(st) == Some(n) { TaskOwnsUsed(s, st, n, l); } else { OthersUseLogs(s, st, n, l); }
      if !UsesLog(m', n, l) { assert s.m.nextTail in m'.tails && m'.tails[s.m.nextTail] == Some(l); }
    } else {
      var t :| t in s.m.tails && s.m.tails[t] == Some(l);
      TaskOwnsTail(s, st, t, l);
    }
  }

  lemma SupUsesLog(s: Node, st: SupStep, n: Name, l: Log)
    requires CanSup(s, st) && UsesLog(s.m, n, l)
    ensures UsesLog(DoSup(s, st).m, n, l)
  {
    SupFrame(s, st);
  }

  lemma SupOwnsLogs(s: Node, st: SupStep, l: Log)
    requires CanSup(s, st) && l in DoSup(s, st).d.logs && (l in s.d.logs ==> LogOwned(s.m, l))
    ensures LogOwned(DoSup(s, st).m, l)
  {
    SupFrame(s, st);
    if n :| UsesLog(s.m, n, l) { SupUsesLog(s, st, n, l); }
  }

  lemma ParkOwnsLogs(s: Node, st: ParkStep, l: Log)
    requires Numbered(s.m) && CanPark(s, st) && l in DoPark(s, st).d.logs && (l in s.d.logs ==> LogOwned(s.m, l))
    ensures LogOwned(DoPark(s, st).m, l)
  {
    var m' := DoPark(s, st).m;
    if n :| UsesLog(s.m, n, l) {
      assert UsesLog(m', n, l);
    } else {
      var t :| t in s.m.tails && s.m.tails[t] == Some(l);
      assert t in m'.tails && m'.tails[t] == Some(l);
    }
  }

  lemma EdgeOwnsLogs(s: Node, st: EdgeStep, l: Log)
    requires CanEdge(s, st) && l in DoEdge(s, st).d.logs && (l in s.d.logs ==> LogOwned(s.m, l))
    ensures LogOwned(DoEdge(s, st).m, l)
  {
    EdgeFrame(s, st);
    if n :| UsesLog(s.m, n, l) { assert UsesLog(DoEdge(s, st).m, n, l); }
  }

  lemma RestartOwnsLogs(range: set<Addr>, d: Disk, stuck: Stuck, to: Node, l: Log)
    requires IsReconciled(range, d, stuck, to) && l in to.d.logs && l !in stuck.logs
    ensures LogOwned(to.m, l)
  {
    var n :| n in d.rows && d.rows[n].LogOf() == l;
    assert n in to.m.vms.Keys && Restored(d, n, to.m.vms[n]);
    assert UsesLog(to.m, n, l);
  }

  lemma StepOwnsLogs(s: Node, st: Step, l: Log)
    requires Inv(s) && Can(s, st) && l in Do(s, st).d.logs && (l in s.d.logs ==> LogOwned(s.m, l))
    requires st.Restart? ==> l !in st.stuck.logs
    ensures LogOwned(Do(s, st).m, l)
  {
    match st
    case Api(st) => ApiOwnsLogs(s, st, l);
    case Build(st) => BuildOwnsLogs(s, st, l);
    case Task(st) => TaskOwnsLogs(s, st, l);
    case Restart(repairs, stuck, to) => RestartOwnsLogs(s.range, RepairedAll(AfterCrash(s), repairs), stuck, to, l);
    case Super(st) => SupOwnsLogs(s, st, l);
    case Parking(st) => ParkOwnsLogs(s, st, l);
    case Edge(st) => EdgeOwnsLogs(s, st, l);
  }

  /** No log is left behind: in every state of every run, each belongs to a VM or is about to be removed, unless a
      starting agent could not remove it. */
  lemma {:induction false} NoLogLeftBehind(ss: seq<Node>, sts: seq<Step>, i: nat, l: Log)
    requires IsRun(ss, sts) && i < |ss| && l in ss[i].d.logs
    requires forall k | 0 <= k < i && sts[k].Restart? :: l !in sts[k].stuck.logs
    ensures LogOwned(ss[i].m, l)
  {
    if i > 0 {
      EveryStateSound(ss, sts, i - 1);
      if l in ss[i - 1].d.logs { NoLogLeftBehind(ss, sts, i - 1, l); }
      StepOwnsLogs(ss[i - 1], sts[i - 1], l);
    }
  }

  // ------------------------------------------------------- a park that is kept --

  /** The VM has been parked, and its end is still to be recorded. */
  predicate KeptNotEnded(m: Mem, n: Name) { Owned(m, n) && ReasonOf(m.sups[n]) == Some(Reason.Parked) }

  /** The park `c` has kept the snapshot of the VM that runs, or ran, under the name, and waits for its end. */
  predicate WaitsForEnd(m: Mem, n: Name, c: Inst) {
    Owned(m, n) && Get(m.parks, c) == Some(Answered(n, m.vms[n].inst))
  }

  ghost predicate KeptWaits(m: Mem, n: Name) { KeptNotEnded(m, n) ==> exists c :: WaitsForEnd(m, n, c) }

  lemma ApiKeepsWaiting(s: Node, st: ApiStep, n: Name, c: Inst)
    requires Shaped(CellAt(s, n)) && CanApi(s, st) && WaitsForEnd(s.m, n, c)
    ensures WaitsForEnd(DoApi(s, st).m, n, c)
  {
  }

  lemma TaskKeepsWaiting(s: Node, st: TaskStep, n: Name, c: Inst)
    requires Shaped(CellAt(s, n)) && CanTask(s, st) && WaitsForEnd(s.m, n, c)
    ensures WaitsForEnd(DoTask(s, st).m, n, c)
  {
  }

  lemma SupKeepsWaiting(s: Node, st: SupStep, n: Name, c: Inst)
    requires Parks(s.m) && CanSup(s, st) && WaitsForEnd(s.m, n, c) && !(st.RecordEnd? && st.n == n)
    ensures WaitsForEnd(DoSup(s, st).m, n, c)
  {
    if !st.VmmDies? { assert SupFits(s.m, st.n, s.m.vms[st.n].inst, s.m.sups[st.n]); }
    if st.ParkRefused? { assert IsQueued(s.m, st.n, s.m.vms[st.n].inst, s.m.sups[st.n].queue[0]); }
  }

  lemma ParkKeepsWaiting(s: Node, st: ParkStep, n: Name, c: Inst)
    requires CanPark(s, st) && WaitsForEnd(s.m, n, c)
    ensures WaitsForEnd(DoPark(s, st).m, n, c)
  {
  }

  lemma SupStartsWaiting(s: Node, st: SupStep, n: Name)
    requires CanSup(s, st) && KeptWaits(s.m, n) && Parks(s.m)
    ensures KeptWaits(DoSup(s, st).m, n)
  {
    if st == ParkOk(n) {
      assert WaitsForEnd(DoSup(s, st).m, n, s.m.sups[n].claim);
    } else if KeptNotEnded(DoSup(s, st).m, n) {
      var c :| WaitsForEnd(s.m, n, c);
      SupKeepsWaiting(s, st, n, c);
    }
  }

  lemma TaskStartsWaiting(s: Node, st: TaskStep, n: Name)
    requires Shaped(CellAt(s, n)) && CanTask(s, st) && KeptWaits(s.m, n)
    ensures KeptWaits(DoTask(s, st).m, n)
  {
    if KeptNotEnded(DoTask(s, st).m, n) {
      var c :| WaitsForEnd(s.m, n, c);
      TaskKeepsWaiting(s, st, n, c);
    }
  }

  lemma ApiStartsWaiting(s: Node, st: ApiStep, n: Name)
    requires Shaped(CellAt(s, n)) && CanApi(s, st) && KeptWaits(s.m, n)
    ensures KeptWaits(DoApi(s, st).m, n)
  {
    if KeptNotEnded(DoApi(s, st).m, n) {
      var c :| WaitsForEnd(s.m, n, c);
      ApiKeepsWaiting(s, st, n, c);
    }
  }

  lemma ParkStartsWaiting(s: Node, st: ParkStep, n: Name)
    requires CanPark(s, st) && KeptWaits(s.m, n)
    ensures KeptWaits(DoPark(s, st).m, n)
  {
    if KeptNotEnded(DoPark(s, st).m, n) {
      var c :| WaitsForEnd(s.m, n, c);
      ParkKeepsWaiting(s, st, n, c);
    }
  }

  lemma SameWaits(m: Mem, m': Mem, n: Name)
    requires KeptWaits(m, n) && m'.vms == m.vms && m'.sups == m.sups && m'.parks == m.parks
    ensures KeptWaits(m', n)
  {
    if KeptNotEnded(m', n) {
      var c :| WaitsForEnd(m, n, c);
      assert WaitsForEnd(m', n, c);
    }
  }

  lemma StepKeepsWaiting(s: Node, st: Step, n: Name)
    requires Inv(s) && Can(s, st) && KeptWaits(s.m, n)
    ensures KeptWaits(Do(s, st).m, n)
  {
    assert Local(CellAt(s, n));
    match st
    case Api(st) => ApiStartsWaiting(s, st, n);
    case Build(st) =>
      BuildFrame(s, st);
      SameWaits(s.m, DoBuild(s, st).m, n);
    case Task(st) => TaskStartsWaiting(s, st, n);
    case Super(st) => SupStartsWaiting(s, st, n);
    case Parking(st) => ParkStartsWaiting(s, st, n);
    case Edge(st) =>
      EdgeFrame(s, st);
      SameWaits(s.m, DoEdge(s, st).m, n);
    case Restart(_, _, _) =>
  }

  /** A park whose snapshot is kept does not let go of its claim before the VM's end is recorded. */
  lemma KeptParkWaits(ss: seq<Node>, sts: seq<Step>, i: nat, n: Name)
    requires IsRun(ss, sts) && i < |ss| && KeptNotEnded(ss[i].m, n)
    ensures exists c :: WaitsForEnd(ss[i].m, n, c)
  {
    KeptWaitsAt(ss, sts, i, n);
  }

  lemma {:induction false} KeptWaitsAt(ss: seq<Node>, sts: seq<Step>, i: nat, n: Name)
    requires IsRun(ss, sts) && i < |ss|
    ensures KeptWaits(ss[i].m, n)
  {
    if i > 0 {
      KeptWaitsAt(ss, sts, i - 1, n);
      EveryStateSound(ss, sts, i - 1);
      StepKeepsWaiting(ss[i - 1], sts[i - 1], n);
    }
  }

  // -------------------------------------------------------- what a VM runs on --

  /** The VM is up, whether it is on record yet or not, and no park has killed it. */
  predicate IsUp(m: Mem, n: Name) {
    && n in m.vms && m.vms[n].Holds()
    && ((n in m.jobs && (m.jobs[n].pc.Built? || m.jobs[n].pc.Recorded? || m.jobs[n].pc.Tidied?)) ||
        (n in m.sups && (m.sups[n].Up? || m.sups[n].Snapping?)))
  }

  predicate OwnRootfs(s: Node, n: Name) { IsUp(s.m, n) ==> HasRootfs(s.d.HostAt(s.m.vms[n].addr)) }

  lemma ApiKeepsRootfs(s: Node, st: ApiStep, n: Name)
    requires Shaped(CellAt(s, n)) && CanApi(s, st) && OwnRootfs(s, n)
    ensures OwnRootfs(DoApi(s, st), n)
  {
  }

  lemma BuildKeepsOwnRootfs(s: Node, st: BuildStep, n: Name)
    requires Shaped(CellAt(s, n)) && CanBuild(s, st) && OwnRootfs(s, n) && st.n == n
    ensures OwnRootfs(DoBuild(s, st), n)
  {
  }

  lemma BuildKeepsRootfs(s: Node, st: BuildStep, n: Name)
    requires Shaped(CellAt(s, n)) && Exclusive(s.m.vms) && CanBuild(s, st) && OwnRootfs(s, n)
    ensures OwnRootfs(DoBuild(s, st), n)
  {
    if st.n == n { BuildKeepsOwnRootfs(s, st, n); }
  }

  lemma TaskKeepsOwnRootfs(s: Node, st: TaskStep, n: Name)
    requires Shaped(CellAt(s, n)) && CanTask(s, st) && OwnRootfs(s, n) && TaskName(st) == Some(n)
    ensures OwnRootfs(DoTask(s, st), n)
  {
  }

  lemma TaskKeepsRootfs(s: Node, st: TaskStep, n: Name)
    requires Shaped(CellAt(s, n)) && CanTask(s, st) && OwnRootfs(s, n)
    ensures OwnRootfs(DoTask(s, st), n)
  {
    if TaskName(st) == Some(n) { TaskKeepsOwnRootfs(s, st, n); }
  }

  lemma SupKeepsOwnRootfs(s: Node, st: SupStep, n: Name)
    requires Shaped(CellAt(s, n)) && CanSup(s, st) && OwnRootfs(s, n) && SupName(st) == Some(n)
    ensures OwnRootfs(DoSup(s, st), n)
  {
  }

  lemma SupKeepsRootfs(s: Node, st: SupStep, n: Name)
    requires Shaped(CellAt(s, n)) && Exclusive(s.m.vms) && CanSup(s, st) && OwnRootfs(s, n)
    ensures OwnRootfs(DoSup(s, st), n)
  {
    if SupName(st) == Some(n) { SupKeepsOwnRootfs(s, st, n); }
  }

  lemma ParkKeepsRootfs(s: Node, st: ParkStep, n: Name)
    requires CanPark(s, st) && OwnRootfs(s, n)
    ensures OwnRootfs(DoPark(s, st), n)
  {
  }

  /** The same, of what a crash leaves. */
  predicate RowRootfs(d: Disk, n: Name) { LiveRow(d, n) ==> HasRootfs(d.HostAt(d.rows[n].addr)) }

  lemma CrashKeepsRootfs(s: Node, n: Name)
    requires Local(CellAt(s, n)) && OwnRootfs(s, n)
    ensures RowRootfs(AfterCrash(s), n)
  {
    var c := CellAt(s, n);
    if LiveRow(s.d, n) { assert c.rowLives && OnRecord(c) && c.at.lives; }
  }

  lemma RepairKeepsRootfs(d: Disk, r: Repair, n: Name)
    requires CanRepair(d, r) && RowRootfs(d, n)
    ensures RowRootfs(Repaired(d, r), n)
  {
  }

  lemma {:induction false} RepairsKeepRootfs(d: Disk, rs: seq<Repair>, n: Name)
    requires CanRepairAll(d, rs) && RowRootfs(d, n)
    ensures RowRootfs(RepairedAll(d, rs), n)
    decreases |rs|
  {
    if rs != [] {
      RepairKeepsRootfs(d, rs[0], n);
      RepairsKeepRootfs(Repaired(d, rs[0]), rs[1..], n);
    }
  }

  lemma ReconcileKeepsRootfs(range: set<Addr>, d: Disk, stuck: Stuck, to: Node, n: Name)
    requires IsReconciled(range, d, stuck, to) && RowRootfs(d, n)
    ensures OwnRootfs(to, n)
  {
    if IsUp(to.m, n) {
      assert n in d.rows && Restored(d, n, to.m.vms[n]) && LiveRow(d, n);
      assert d.rows[n].addr in LiveAddrs(d);
    }
  }

  lemma StepKeepsRootfs(s: Node, st: Step, n: Name)
    requires Inv(s) && Can(s, st) && OwnRootfs(s, n)
    ensures OwnRootfs(Do(s, st), n)
  {
    assert Local(CellAt(s, n));
    match st
    case Api(st) => ApiKeepsRootfs(s, st, n);
    case Build(st) => BuildKeepsRootfs(s, st, n);
    case Task(st) => TaskKeepsRootfs(s, st, n);
    case Super(st) => SupKeepsRootfs(s, st, n);
    case Parking(st) => ParkKeepsRootfs(s, st, n);
    case Edge(st) => EdgeFrame(s, st);
    case Restart(repairs, stuck, to) =>
      CrashKeepsRootfs(s, n);
      RepairsKeepRootfs(AfterCrash(s), repairs, n);
      ReconcileKeepsRootfs(s.range, RepairedAll(AfterCrash(s), repairs), stuck, to, n);
  }

  /** In every state of every run a VM that is up runs on a rootfs of its own, which is no longer, or never was, a
      snapshot's. */
  lemma {:induction false} RunsOnOwnRootfs(ss: seq<Node>, sts: seq<Step>, i: nat, n: Name)
    requires IsRun(ss, sts) && i < |ss|
    ensures OwnRootfs(ss[i], n)
  {
    if i == 0 {
      assert n !in ss[0].m.vms;
    } else {
      RunsOnOwnRootfs(ss, sts, i - 1, n);
      EveryStateSound(ss, sts, i - 1);
      StepKeepsRootfs(ss[i - 1], sts[i - 1], n);
    }
  }

  // ------------------------------------------------------- a put-back's renames --

  /** Each rename of a put-back puts its file into the parked directory and leaves every other as it was; the others can
      still be made after it, and it cannot be made again. */
  lemma MovesBackOne(s: Node, n: Name, f: SnapFile, f': SnapFile)
    requires CanBuild(s, MoveBack(n, f))
    ensures var s' := DoBuild(s, MoveBack(n, f));
            && s'.d.DirAt(n) == s.d.DirAt(n)[f := s.d.HostAt(s.m.vms[n].addr).jail[f]]
            && (CanBuild(s', MoveBack(n, f')) <==> f' != f && CanBuild(s, MoveBack(n, f')))
  {
  }

  /** And the same without a namespace, from the working directory. */
  lemma TakesOne(s: Node, n: Name, f: SnapFile, c: Content, f': SnapFile, c': Content)
    requires CanBuild(s, TakeCwd(n, f, c))
    ensures var s' := DoBuild(s, TakeCwd(n, f, c));
            && s'.d.DirAt(n) == s.d.DirAt(n)[f := c]
            && (CanBuild(s', TakeCwd(n, f', c')) <==> f' != f && CanBuild(s, TakeCwd(n, f', c')))
  {
  }

  /** Without a namespace all three names are looked for. */
  lemma LooksForAll(s: Node, n: Name, made: bool, f: SnapFile, c: Content)
    requires Inv(s) && CanBuild(s, EnterErr(n, made)) && s.m.jobs[n].kind.FromSnapshot? && n in s.d.parked
    ensures CanBuild(DoBuild(s, EnterErr(n, made)), TakeCwd(n, f, c))
  {
  }

  /** A wake that is on record leaves no directory of the snapshot it used up, unless something has touched that. */
  lemma UsedUpSnapshotGone(s: Node, n: Name)
    requires Inv(s) && CanTask(s, Tidy(n))
    ensures var kind, s' := s.m.jobs[n].kind, DoTask(s, Tidy(n));
            && (kind.FromSnapshot? && n !in s.d.damaged ==> n !in s'.d.parked)
            && (kind.FromSnapshot? ==> (n in s'.d.parked <==> s.d.DirAt(n) != map[]))
            && (kind.Fresh? ==> s'.d.parked == s.d.parked)
  {
    assert Local(CellAt(s, n));
  }
}
