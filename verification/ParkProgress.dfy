/** A park comes to its end: every step of its own, and of the supervisor it waits for, brings it nearer, and
    nobody else's step delays it. */
module ParkProgress {
  import opened Common
  import opened Registry
  import opened RegistryInvariant
  import opened RegistryRuns
  import opened NodeTheorems
  import opened JobProgress

  /** How many parks are before `c`. */
  function Pos(queue: seq<Inst>, c: Inst): nat {
    if queue == [] || queue[0] == c then 0 else 1 + Pos(queue[1..], c)
  }

  lemma {:induction false} PosKept(queue: seq<Inst>, c: Inst, last: Inst)
    requires c in queue
    ensures Pos(queue + [last], c) == Pos(queue, c)
  {
    if queue[0] != c {
      assert (queue + [last])[1..] == queue[1..] + [last];
      PosKept(queue[1..], c, last);
    }
  }

  /** How many files of the snapshot are still to be moved out. */
  function ToMove(dir: Dir, vmm: Option<Proc>): nat {
    if vmm.None? then 0
    else
      One(!(VmState in dir && dir[VmState] == OfPark(vmm.value))) + One(!(Memory in dir && dir[Memory] == OfPark(vmm.value))) +
      One(!(Rootfs in dir && dir[Rootfs] == OfPark(vmm.value)))
  }

  /** What a supervisor has left to do, at most, before its VM's end is recorded or the park `c` is refused. */
  function SupRank(sup: Sup, host: Host, dir: Dir, c: Inst): nat {
    match sup
    case Up(queue) => 40 * (Pos(queue, c) + 1) + 20
    case Snapping(c', queue) => if c' == c then 20 else 40 * (Pos(queue, c) + 1) + 30
    case Moving(_) => 12 + ToMove(dir, host.vmm)
    case Down(_) => 4 + CountObjs(host.objs) + CountFiles(host.jail.Keys)
    case Gone(_) => 3
  }

  /** The park `c` was sent to the VM under `n`, which is still there. */
  predicate Awaits(m: Mem, c: Inst, n: Name) {
    && c in m.parks && (m.parks[c].Queued? || m.parks[c].Answered?)
    && m.parks[c].n == n && StillAt(m, n, m.parks[c].at) && n in m.sups
  }

  function ParkRank(s: Node, c: Inst): nat
    requires c in s.m.parks
  {
    var p := s.m.parks[c];
    if p.Claimed? then 0
    else if p.Over? then 1
    else if Awaits(s.m, c, p.n) then
      SupRank(s.m.sups[p.n], s.d.HostAt(s.m.vms[p.n].addr), s.d.DirAt(p.n), c)
    else 2
  }

  /** The step is the park's, or that of the supervisor it waits for. */
  predicate ParkStepOf(s: Node, st: Step, c: Inst) {
    match st
    case Parking(st) => st.c == c
    case Super(st) => SupName(st).Some? && Awaits(s.m, c, SupName(st).value)
    case Build(Undo(n, _)) => Awaits(s.m, c, n)
    case Build(UndoPart(n, _)) => Awaits(s.m, c, n)
    case _ => false
  }

  /** The park is over in `s'`, or nearer its end than in `s`; being sent comes before all else. */
  predicate ParkNearer(s: Node, s': Node, c: Inst)
    requires c in s.m.parks
  {
    c in s'.m.parks ==> !s'.m.parks[c].Claimed? && (s.m.parks[c].Claimed? || ParkRank(s', c) < ParkRank(s, c))
  }

  predicate ParkNoFurther(s: Node, s': Node, c: Inst)
    requires c in s.m.parks
  {
    && c in s'.m.parks && (s'.m.parks[c].Claimed? <==> s.m.parks[c].Claimed?)
    && ParkRank(s', c) <= ParkRank(s, c)
  }

  lemma QueueAdvances(s: Node, st: SupStep, c: Inst)
    requires CanSup(s, st) && (st.ParkBegin? || st.ParkRefused?) && Awaits(s.m, c, st.n)
    requires ParkFits(s.m, c, s.m.parks[c])
    ensures ParkNearer(s, DoSup(s, st), c)
  {
    var queue := s.m.sups[st.n].queue;
    assert c in queue && queue == [queue[0]] + queue[1..];
  }

  lemma SnapAdvances(s: Node, st: SupStep, c: Inst)
    requires CanSup(s, st) && (st.ParkResumed? || st.ParkKill? || st.ParkLost? || st.ParkOk?) && Awaits(s.m, c, st.n)
    requires ParkFits(s.m, c, s.m.parks[c])
    ensures ParkNearer(s, DoSup(s, st), c)
  {
  }

  lemma MoveAdvances(s: Node, n: Name, f: SnapFile, c: Inst)
    requires CanSup(s, ParkMove(n, f)) && Awaits(s.m, c, n)
    ensures ParkNearer(s, DoSup(s, ParkMove(n, f)), c)
  {
    match f case VmState => case Memory => case Rootfs =>
  }

  lemma EndAdvances(s: Node, st: SupStep, c: Inst)
    requires CanSup(s, st) && (st.SupEnd? || st.SupGone? || st.RecordEnd?) && Awaits(s.m, c, st.n)
    requires ParkFits(s.m, c, s.m.parks[c])
    ensures ParkNearer(s, DoSup(s, st), c)
  {
  }

  lemma SupAdvances(s: Node, st: SupStep, c: Inst)
    requires CanSup(s, st) && SupName(st).Some? && Awaits(s.m, c, SupName(st).value)
    requires ParkFits(s.m, c, s.m.parks[c])
    ensures ParkNearer(s, DoSup(s, st), c)
  {
    match st
    case ParkBegin(_) => QueueAdvances(s, st, c);
    case ParkRefused(_) => QueueAdvances(s, st, c);
    case ParkMove(n, f) => MoveAdvances(s, n, f, c);
    case SupEnd(_, _) => EndAdvances(s, st, c);
    case SupGone(_) => EndAdvances(s, st, c);
    case RecordEnd(_, _) => EndAdvances(s, st, c);
    case _ => SnapAdvances(s, st, c);
  }

  lemma TeardownAdvances(s: Node, n: Name, o: Obj, c: Inst)
    requires CanBuild(s, Undo(n, o)) && Awaits(s.m, c, n)
    ensures ParkNearer(s, DoBuild(s, Undo(n, o)), c)
  {
    match o case Netns => case JailDir => case Cgroup => case Veth =>
  }

  lemma TeardownPartAdvances(s: Node, n: Name, left: Dir, c: Inst)
    requires CanBuild(s, UndoPart(n, left)) && Awaits(s.m, c, n)
    ensures ParkNearer(s, DoBuild(s, UndoPart(n, left)), c)
  {
    FewerLeft(s.d.HostAt(s.m.vms[n].addr).jail, left);
  }

  lemma OwnAdvances(s: Node, st: ParkStep)
    requires CanPark(s, st)
    ensures ParkNearer(s, DoPark(s, st), st.c)
  {
  }

  /** Each step of a park, and of the supervisor it waits for, ends the park or brings it nearer its end. */
  lemma ParkAdvances(s: Node, st: Step, c: Inst)
    requires Parks(s.m) && Can(s, st) && c in s.m.parks && ParkStepOf(s, st, c)
    ensures ParkNearer(s, Do(s, st), c)
  {
    assert ParkFits(s.m, c, s.m.parks[c]);
    match st
    case Parking(st) => OwnAdvances(s, st);
    case Super(st) => SupAdvances(s, st, c);
    case Build(Undo(n, o)) => TeardownAdvances(s, n, o, c);
    case Build(UndoPart(n, left)) => TeardownPartAdvances(s, n, left, c);
  }

  // ------------------------------------------------------- everyone else --

  /** Nothing has changed of what a park waits for. */
  lemma SameWait(s: Node, s': Node, c: Inst)
    requires c in s.m.parks && c in s'.m.parks && s'.m.parks[c] == s.m.parks[c]
    requires Awaits(s'.m, c, s.m.parks[c].n) <==> Awaits(s.m, c, s.m.parks[c].n)
    requires Awaits(s.m, c, s.m.parks[c].n) ==>
      var n := s.m.parks[c].n;
      && s'.m.sups[n] == s.m.sups[n] && s'.d.DirAt(n) == s.d.DirAt(n)
      && s'.d.HostAt(s'.m.vms[n].addr) == s.d.HostAt(s.m.vms[n].addr)
    ensures ParkNoFurther(s, s', c)
  {
  }

  lemma ApiNoDelay(s: Node, st: ApiStep, c: Inst)
    requires CanApi(s, st) && c in s.m.parks
    ensures ParkNoFurther(s, DoApi(s, st), c)
  {
    SameWait(s, DoApi(s, st), c);
  }

  lemma BuildNoDelay(s: Node, st: BuildStep, c: Inst)
    requires Exclusive(s.m.vms) && CanBuild(s, st) && c in s.m.parks && !ParkStepOf(s, Build(st), c)
    ensures ParkNoFurther(s, DoBuild(s, st), c)
  {
    SameWait(s, DoBuild(s, st), c);
  }

  lemma TaskNoDelay(s: Node, st: TaskStep, c: Inst)
    requires CanTask(s, st) && c in s.m.parks && ParkFits(s.m, c, s.m.parks[c])
    ensures ParkNoFurther(s, DoTask(s, st), c)
  {
    SameWait(s, DoTask(s, st), c);
  }

  lemma SupNoDelay(s: Node, st: SupStep, c: Inst)
    requires Exclusive(s.m.vms) && CanSup(s, st) && c in s.m.parks && !ParkStepOf(s, Super(st), c)
    requires SupName(st).Some? ==> SupFits(s.m, st.n, s.m.vms[st.n].inst, s.m.sups[st.n])
    ensures ParkNoFurther(s, DoSup(s, st), c)
  {
    SameWait(s, DoSup(s, st), c);
  }

  lemma SendNoDelay(s: Node, c': Inst, c: Inst)
    requires CanPark(s, Send(c')) && c in s.m.parks && c' != c && ParkFits(s.m, c, s.m.parks[c])
    ensures ParkNoFurther(s, DoPark(s, Send(c')), c)
  {
    var n := s.m.parks[c].n;
    if Awaits(s.m, c, n) && s.m.parks[c'].n == n && (s.m.sups[n].Up? || s.m.sups[n].Snapping?) {
      if c in s.m.sups[n].queue { PosKept(s.m.sups[n].queue, c, c'); }
    } else {
      SameWait(s, DoPark(s, Send(c')), c);
    }
  }

  lemma ParkNoDelay(s: Node, st: ParkStep, c: Inst)
    requires CanPark(s, st) && c in s.m.parks && st.c != c && ParkFits(s.m, c, s.m.parks[c])
    ensures ParkNoFurther(s, DoPark(s, st), c)
  {
    if st.Send? { SendNoDelay(s, st.c, c); } else { SameWait(s, DoPark(s, st), c); }
  }

  /** Nobody else's step takes a park further from its end. */
  lemma ParkNotDelayed(s: Node, st: Step, c: Inst)
    requires Inv(s) && Can(s, st) && !st.Restart? && c in s.m.parks && !ParkStepOf(s, st, c)
    ensures ParkNoFurther(s, Do(s, st), c)
  {
    assert ParkFits(s.m, c, s.m.parks[c]);
    match st
    case Api(st) => ApiNoDelay(s, st, c);
    case Build(st) => BuildNoDelay(s, st, c);
    case Task(st) => TaskNoDelay(s, st, c);
    case Super(st) => SupNoDelay(s, st, c);
    case Parking(st) => ParkNoDelay(s, st, c);
    case Edge(st) => EdgeFrame(s, st);
  }

  lemma SupGoesOn(s: Node, c: Inst, n: Name) returns (st: SupStep)
    requires Awaits(s.m, c, n) && ParkFits(s.m, c, s.m.parks[c])
    requires s.m.sups[n].Down? ==> !s.d.Lives(s.m.vms[n].addr)
    ensures CanSup(s, st) && SupName(st) == Some(n)
  {
    match s.m.sups[n]
    case Up(_) => st := ParkBegin(n);
    case Snapping(_, _) => st := ParkKill(n);
    case Moving(_) => st := ParkLost(n, None);
    case Down(_) => st := SupGone(n);
    case Gone(_) => st := RecordEnd(n, true);
  }

  lemma DownIsDead(s: Node, n: Name)
    requires Hosted(CellAt(s, n)) && Owned(s.m, n) && s.m.sups[n].Down?
    ensures !s.d.Lives(s.m.vms[n].addr)
  {
  }

  lemma OwnGoesOn(s: Node, c: Inst) returns (st: ParkStep)
    requires c in s.m.parks && !Awaits(s.m, c, s.m.parks[c].n)
    requires Shaped(CellAt(s, s.m.parks[c].n))
    ensures CanPark(s, st) && st.c == c
  {
    match s.m.parks[c]
    case Claimed(_) => st := Send(c);
    case Queued(_, _) => st := Drop(c);
    case Answered(_, _) => st := HearEnd(c);
    case Over(_) => st := Release(c);
  }

  /** A park always has a step to take, or the supervisor it waits for has. */
  lemma ParkGoesOn(s: Node, c: Inst) returns (st: Step)
    requires Inv(s) && c in s.m.parks
    ensures Can(s, st) && ParkStepOf(s, st, c)
  {
    var n := s.m.parks[c].n;
    assert ParkFits(s.m, c, s.m.parks[c]);
    assert Shaped(CellAt(s, n)) && Hosted(CellAt(s, n)) by { assert Local(CellAt(s, n)); }
    if Awaits(s.m, c, n) {
      if s.m.sups[n].Down? { DownIsDead(s, n); }
      var sup := SupGoesOn(s, c, n);
      st := Super(sup);
    } else {
      var own := OwnGoesOn(s, c);
      st := Parking(own);
    }
  }
}
