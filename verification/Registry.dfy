/** The Node agent's VM registry as one state machine.

    A `Node` is what survives the agent (`Disk`: the database rows, the parked
    snapshots, the console logs, the host objects and the VMM processes) and
    what does not (`Mem`: the VM table, the start and wake tasks, the
    supervisors, the parks, the requests the edge holds).  Each `Step` is
    one section under the VM table's lock, or one action outside it, so a run is
    any interleaving of the agent's tasks, with every foreign call free to fail
    and a crash possible between any two steps.

    Three fields of `Disk` are history: `leaked` holds the addresses whose last
    teardown had an undo step that failed, `damaged` the names whose snapshot a
    put-back, a failed removal or a crash in mid-wake has touched, and `stale` the
    names whose last `mark_ended` failed.  No step looks at them; the invariant
    does, to say what holds of the names and addresses that are in none. */
module Registry {
  import opened Common
  import Ordered

  type Name = string
  type Addr = nat
  type Log = nat
  type Proc = nat
  type Inst = nat
  type Req = nat

  datatype Reason = Exited | Crashed | Graceful | Forced | Parked | AgentDown

  datatype Route = Route(host: string, port: nat, idleParkSecs: Option<nat>)

  /** An Ended VM: history only, holding no host state and no VM address. */
  datatype Record = Record(reason: Reason, log: Log, route: Option<Route>)

  datatype Entry =
    | Starting(addr: Addr, log: Log, route: Option<Route>)
    | Running(addr: Addr, log: Log, route: Option<Route>, inst: Inst)
    | Ended(rec: Record)
  {
    predicate Holds() { !Ended? }
    function LogOf(): Log { if Ended? then rec.log else log }
    function RouteOf(): Option<Route> { if Ended? then rec.route else route }
    predicate Parked() { Ended? && rec.reason.Parked? }
    predicate HasHost(host: string) { RouteOf().Some? && RouteOf().value.host == host }
  }

  datatype Row =
    | RowRunning(addr: Addr, proc: Proc, log: Log, route: Option<Route>)
    | RowEnded(rec: Record)
  {
    function LogOf(): Log { if RowEnded? then rec.log else log }
    function RouteOf(): Option<Route> { if RowEnded? then rec.route else route }
    predicate Parked() { RowEnded? && rec.reason.Parked? }
    /** The row `mark_ended` leaves. */
    function MarkedEnded(reason: Reason): Row { RowEnded(Record(reason, LogOf(), RouteOf())) }
  }

  datatype SnapFile = VmState | Memory | Rootfs

  /** What a file holds: its part of the snapshot that the park of a VM, known by its VMM, made; the rootfs that a VM
      runs on; or anything else. */
  datatype Content = OfPark(proc: Proc) | RootfsOf(proc: Proc) | Foreign(what: nat)

  /** The files of a directory that have a snapshot's names: in a parked directory, or those a put-back looks for in
      a jail. */
  type Dir = map<SnapFile, Content>

  /** All three files, from the park of the VM of `p`. */
  predicate WholeOf(dir: Dir, p: Proc) {
    VmState in dir && Memory in dir && Rootfs in dir &&
    dir[VmState] == dir[Memory] == dir[Rootfs] == OfPark(p)
  }

  /** All three files, from one and the same park. */
  predicate Whole(dir: Dir) { VmState in dir && dir[VmState].OfPark? && WholeOf(dir, dir[VmState].proc) }

  datatype Obj = Netns | JailDir | Cgroup | Veth

  /** The host state under one VM address. */
  datatype Host = Host(objs: set<Obj>, vmm: Option<Proc>, jail: Dir)

  const NoHost := Host({}, None, map[])

  datatype Disk = Disk(
    rows: map<Name, Row>,
    apps: map<Name, string>,       // Machine-backed Apps: name to hostname
    parked: map<Name, Dir>,
    logs: set<Log>,
    host: map<Addr, Host>,
    alive: map<Proc, Addr>,        // each live VMM, and the address it serves
    nextProc: Proc,
    leaked: set<Addr>,
    damaged: set<Name>,
    stale: set<Name>)
  {
    function HostAt(a: Addr): Host { if a in host then host[a] else NoHost }
    function DirAt(n: Name): Dir { if n in parked then parked[n] else map[] }
    /** The VMM spawned at `a` still runs. */
    predicate Lives(a: Addr) { HostAt(a).vmm.Some? && HostAt(a).vmm.value in alive }
    function Killed(a: Addr): map<Proc, Addr> {
      if HostAt(a).vmm.Some? then alive - {HostAt(a).vmm.value} else alive
    }
  }

  /** What a start would put back, or what a wake started from. */
  datatype Kind = Fresh(replaced: Option<Record>) | FromSnapshot(from: Record)
  {
    function PutBack(): Option<Record> { if Fresh? then replaced else Some(from) }
  }

  /** Where a start or wake task is between two of the agent's locks. */
  datatype Pc =
    | Entering               // `Vm::start` or `Vm::wake` makes its namespace
    | Building               // it has one, and the jail's root is known
    | PuttingBack            // a failed wake moves its snapshot back from the jail
    | PuttingBackCwd(left: set<SnapFile>)  // or, without a namespace, from the agent's working directory
    | Unwinding              // a failed start or wake runs its undo stack
    | Failed                 // unwound; the table is still to be changed
    | Built(proc: Proc)      // the VM runs; not on record yet
    | Recorded(proc: Proc)   // `insert_running` committed
    | Tidied(proc: Proc)     // the replaced log, or the used-up snapshot's directory, is gone
    | Unrecorded             // `insert_running` failed: the VM is being destroyed
    | Destroyed              // its host state is gone
    | Marked                 // a wake that could not be recorded has been marked as forced

  datatype Job = Job(kind: Kind, pc: Pc)

  /** Where a supervisor is.  `queue` holds the parks sent to it and not yet taken, by their claims. */
  datatype Sup =
    | Up(queue: seq<Inst>)
    | Snapping(claim: Inst, queue: seq<Inst>)  // a park has made its directory and pauses or snapshots the VM
    | Moving(claim: Inst)    // the VMM is dead and its snapshot is being moved out
    | Down(reason: Reason)   // the VMM is dead; the undo stack is being run
    | Gone(reason: Reason)   // torn down, its channel closed; the end is still to be recorded

  /** Where a park is, from its claim until its claim is released. */
  datatype Park =
    | Claimed(n: Name)
    | Queued(n: Name, at: Inst)     // sent to the supervisor of the VM that ran under the name then
    | Answered(n: Name, at: Inst)   // the snapshot is kept; the VM's end is awaited
    | Over(n: Name)                 // refused, failed, dropped, or done

  /** What a request the edge holds waits for. */
  datatype On = OnStart | OnPark(inst: Inst)

  datatype Hold =
    | Listening(heard: bool)
    | Holding(name: Name, on: On, heard: bool)

  datatype Mem = Mem(
    vms: map<Name, Entry>,
    jobs: map<Name, Job>,
    sups: map<Name, Sup>,
    parks: map<Inst, Park>,          // by the instance whose `parking` flag is set
    tails: map<nat, Option<Log>>,    // tasks that changed the table and still have to notify
    reqs: map<Req, Hold>,
    nextLog: Log,
    nextInst: Inst,
    nextTail: nat)

  datatype Node = Node(range: set<Addr>, d: Disk, m: Mem)

  /** The addresses the table's Starting and Running entries hold. */
  function Held(vms: map<Name, Entry>): set<Addr> {
    set n | n in vms && vms[n].Holds() :: vms[n].addr
  }

  predicate HostTaken(s: Node, host: string) {
    (exists n :: n in s.m.vms && s.m.vms[n].HasHost(host)) || host in s.d.apps.Values
  }

  /** `n` is the first App, in name order, whose route has `host`. */
  predicate Serves(vms: map<Name, Entry>, host: string, n: Name) {
    n in vms && vms[n].HasHost(host) &&
    forall n' | n' in vms && n' != n && vms[n'].HasHost(host) :: Ordered.Less(n, n')
  }

  /** A start of `n` may take `host`: no App has it, or the first that does is `n`. */
  predicate HostFree(s: Node, n: Name, host: string) {
    && host !in s.d.apps.Values
    && forall n' | n' in s.m.vms && n' != n && s.m.vms[n'].HasHost(host) :: Serves(s.m.vms, host, n)
  }

  // ---------------------------------------------------------------- steps --

  /** What the API and the idle parker do under the VM table's lock. */
  datatype ApiStep =
    | ReserveStart(n: Name, route: Option<Route>, a: Addr)
    | RefuseStart            // which has taken a log number already
    | ReserveWake(n: Name, a: Addr)
    | Remove(n: Name)
    | RemoveFails(n: Name, left: Option<Dir>)
    | AddApp(n: Name, host: string)
    | RemoveApp(n: Name)
    | ClaimPark(n: Name)

  /** What `Vm::start`, `Vm::wake` and a teardown do to the host, call by call. */
  datatype BuildStep =
    | Enter(n: Name)
    | EnterErr(n: Name, made: bool)
    | MakeObj(n: Name, o: Obj)
    | MakeLog(n: Name)
    | SpawnVmm(n: Name)
    | WriteRootfs(n: Name)
    | MoveIn(n: Name, f: SnapFile)
    | BuildOk(n: Name)
    | BuildErr(n: Name)
    | MoveBack(n: Name, f: SnapFile)
    | TakeCwd(n: Name, f: SnapFile, found: Content)
    | PutBackDone(n: Name)
    | Undo(n: Name, o: Obj)
    | UndoPart(n: Name, left: Dir)   // the jail's removal fails, having removed some of it
    | UnwindDone(n: Name)

  /** What a start or wake task does once `Vm::start` or `Vm::wake` has returned. */
  datatype TaskStep =
    | Insert(n: Name, ok: bool)
    | MarkForced(n: Name, ok: bool)
    | Forget(n: Name)
    | PutBackParked(n: Name)
    | EndForced(n: Name)
    | Tidy(n: Name)
    | Supervise(n: Name)
    | DropLog(t: nat)
    | Notify(t: nat)

  /** What a VMM and the supervisor task that owns it do. */
  datatype SupStep =
    | VmmDies(p: Proc)
    | ParkBegin(n: Name)
    | ParkRefused(n: Name)   // the VM is being stopped
    | ParkResumed(n: Name, left: Option<Dir>)
    | ParkKill(n: Name)
    | ParkMove(n: Name, f: SnapFile)
    | ParkOk(n: Name)
    | ParkLost(n: Name, left: Option<Dir>)
    | SupEnd(n: Name, reason: Reason)
    | SupGone(n: Name)
    | RecordEnd(n: Name, ok: bool)

  /** What a park does between its claim and its claim's release. */
  datatype ParkStep =
    | Send(c: Inst)
    | Drop(c: Inst)
    | HearEnd(c: Inst)
    | Release(c: Inst)

  /** What a request at the edge does. */
  datatype EdgeStep =
    | Listen(r: Req)
    | Look(r: Req, host: string, n: Name)
    | Resume(r: Req)
    | GiveUp(r: Req)

  datatype Step =
    | Api(api: ApiStep)
    | Build(build: BuildStep)
    | Task(task: TaskStep)
    | Super(sup: SupStep)
    | Parking(park: ParkStep)
    | Edge(edge: EdgeStep)
    | Restart(repairs: seq<Repair>, stuck: Stuck, to: Node)

  predicate JobAt(s: Node, n: Name, pc: Pc) {
    n in s.m.jobs && s.m.jobs[n].pc == pc && n in s.m.vms && s.m.vms[n].Starting?
  }

  /** The VM `n` runs, or ran, and a supervisor owns it. */
  predicate Owned(m: Mem, n: Name) { n in m.sups && n in m.vms && m.vms[n].Running? }

  /** The VM a park was sent to is still the one under the name. */
  predicate StillAt(m: Mem, n: Name, at: Inst) { n in m.vms && m.vms[n].Running? && m.vms[n].inst == at }

  /** A wake without a namespace takes the agent's working directory for its jail. */
  predicate PuttingBackFromCwd(s: Node, n: Name) {
    n in s.m.jobs && s.m.jobs[n].pc.PuttingBackCwd? && n in s.m.vms && s.m.vms[n].Starting?
  }

  /** What `remove_dir_all` may leave: nothing, or some of the files when it fails part-way. */
  predicate Leaves(dir: Dir, left: Option<Dir>) {
    left.Some? ==> left.value.Items <= dir.Items
  }

  /** A teardown is running its undo stack for `n`. */
  predicate TearingDown(s: Node, n: Name) {
    || JobAt(s, n, Unwinding)
    || JobAt(s, n, Unrecorded)
    || (Owned(s.m, n) && s.m.sups[n].Down?)
  }

  // The guards: never stricter than the code's.

  predicate CanApi(s: Node, st: ApiStep) {
    match st
    case ReserveStart(n, route, a) =>
      && n !in s.d.apps
      && (n in s.m.vms ==> s.m.vms[n].Ended? && !s.m.vms[n].Parked())
      && (route.Some? ==> HostFree(s, n, route.value.host))
      && a in s.range && a !in Held(s.m.vms)
    case RefuseStart => true
    case ReserveWake(n, a) =>
      && n in s.m.vms && s.m.vms[n].Parked() && n in s.d.parked
      && a in s.range && a !in Held(s.m.vms)
    case Remove(n) => n in s.m.vms && s.m.vms[n].Ended?
    case RemoveFails(n, left) => n in s.m.vms && s.m.vms[n].Ended? && Leaves(s.d.DirAt(n), left)
    case AddApp(n, host) => n !in s.m.vms && n !in s.d.apps && !HostTaken(s, host)
    case RemoveApp(n) => n in s.d.apps
    case ClaimPark(n) => n in s.m.vms && s.m.vms[n].Running? && s.m.vms[n].inst !in s.m.parks
  }

  /** The jail holds the rootfs of the VM that it is made for. */
  predicate HasRootfs(h: Host) { h.vmm.Some? && Rootfs in h.jail && h.jail[Rootfs] == RootfsOf(h.vmm.value) }

  predicate CanBuild(s: Node, st: BuildStep) {
    match st
    case Enter(n) => JobAt(s, n, Entering) && Netns !in s.d.HostAt(s.m.vms[n].addr).objs
    case EnterErr(n, made) => JobAt(s, n, Entering)
    case MakeObj(n, o) => JobAt(s, n, Building) && o !in s.d.HostAt(s.m.vms[n].addr).objs
    case MakeLog(n) => JobAt(s, n, Building) && s.m.vms[n].log !in s.d.logs
    case SpawnVmm(n) => JobAt(s, n, Building) && s.d.HostAt(s.m.vms[n].addr).vmm.None?
    case WriteRootfs(n) =>
      && JobAt(s, n, Building) && s.m.jobs[n].kind.Fresh?
      && s.d.HostAt(s.m.vms[n].addr).vmm.Some? && !HasRootfs(s.d.HostAt(s.m.vms[n].addr))
    case MoveIn(n, f) =>
      JobAt(s, n, Building) && s.m.jobs[n].kind.FromSnapshot? && f in s.d.DirAt(n)
    case BuildOk(n) =>
      && JobAt(s, n, Building)
      && s.d.HostAt(s.m.vms[n].addr).vmm.Some?
      && s.m.vms[n].log in s.d.logs
      && (s.m.jobs[n].kind.Fresh? ==> HasRootfs(s.d.HostAt(s.m.vms[n].addr)))
      && (s.m.jobs[n].kind.FromSnapshot? ==>
            s.d.DirAt(n) == map[] && s.d.HostAt(s.m.vms[n].addr).jail.Keys == {VmState, Memory, Rootfs})
    case BuildErr(n) => JobAt(s, n, Building)
    case MoveBack(n, f) =>
      JobAt(s, n, PuttingBack) && n in s.d.parked && f in s.d.HostAt(s.m.vms[n].addr).jail
    case TakeCwd(n, f, found) => PuttingBackFromCwd(s, n) && n in s.d.parked && f in s.m.jobs[n].pc.left
    case PutBackDone(n) => JobAt(s, n, PuttingBack) || PuttingBackFromCwd(s, n)
    case Undo(n, o) =>
      TearingDown(s, n) && !s.d.Lives(s.m.vms[n].addr) && o in s.d.HostAt(s.m.vms[n].addr).objs
    case UndoPart(n, left) =>
      && TearingDown(s, n) && !s.d.Lives(s.m.vms[n].addr) && JailDir in s.d.HostAt(s.m.vms[n].addr).objs
      && left.Items < s.d.HostAt(s.m.vms[n].addr).jail.Items
    case UnwindDone(n) =>
      (JobAt(s, n, Unwinding) || JobAt(s, n, Unrecorded)) && !s.d.Lives(s.m.vms[n].addr)
  }

  predicate CanTask(s: Node, st: TaskStep) {
    match st
    case Insert(n, ok) =>
      n in s.m.jobs && s.m.jobs[n].pc.Built? && n in s.m.vms && s.m.vms[n].Starting?
    case MarkForced(n, ok) => JobAt(s, n, Destroyed) && s.m.jobs[n].kind.FromSnapshot?
    case Forget(n) =>
      (JobAt(s, n, Failed) || JobAt(s, n, Destroyed)) && s.m.jobs[n].kind.Fresh?
    case PutBackParked(n) => JobAt(s, n, Failed) && s.m.jobs[n].kind.FromSnapshot?
    case EndForced(n) => JobAt(s, n, Marked) && s.m.jobs[n].kind.FromSnapshot?
    case Tidy(n) =>
      n in s.m.jobs && s.m.jobs[n].pc.Recorded? && n in s.m.vms && s.m.vms[n].Starting?
    case Supervise(n) =>
      n in s.m.jobs && s.m.jobs[n].pc.Tidied? && n in s.m.vms && s.m.vms[n].Starting?
    case DropLog(t) => t in s.m.tails && s.m.tails[t].Some?
    case Notify(t) => t in s.m.tails && s.m.tails[t].None?
  }

  predicate CanSup(s: Node, st: SupStep) {
    match st
    case VmmDies(p) => p in s.d.alive
    case ParkBegin(n) => Owned(s.m, n) && s.m.sups[n].Up? && s.m.sups[n].queue != []
    case ParkRefused(n) => Owned(s.m, n) && s.m.sups[n].Up? && s.m.sups[n].queue != []
    case ParkResumed(n, left) => Owned(s.m, n) && s.m.sups[n].Snapping? && Leaves(s.d.DirAt(n), left)
    case ParkKill(n) => Owned(s.m, n) && s.m.sups[n].Snapping?
    case ParkMove(n, f) =>
      && Owned(s.m, n) && s.m.sups[n].Moving?
      && var h := s.d.HostAt(s.m.vms[n].addr);
         && h.vmm.Some? && (f.Rootfs? ==> Rootfs in h.jail)
         && !(f in s.d.DirAt(n) && s.d.DirAt(n)[f] == OfPark(h.vmm.value))
    case ParkOk(n) =>
      && Owned(s.m, n) && s.m.sups[n].Moving? && s.d.HostAt(s.m.vms[n].addr).vmm.Some?
      && WholeOf(s.d.DirAt(n), s.d.HostAt(s.m.vms[n].addr).vmm.value)
    case ParkLost(n, left) =>
      Owned(s.m, n) && (s.m.sups[n].Snapping? || s.m.sups[n].Moving?) && Leaves(s.d.DirAt(n), left)
    case SupEnd(n, reason) => Owned(s.m, n) && s.m.sups[n].Up? && reason !in {Reason.Parked, AgentDown}
    case SupGone(n) => Owned(s.m, n) && s.m.sups[n].Down? && !s.d.Lives(s.m.vms[n].addr)
    case RecordEnd(n, ok) => Owned(s.m, n) && s.m.sups[n].Gone?
  }

  predicate CanPark(s: Node, st: ParkStep) {
    match st
    case Send(c) => c in s.m.parks && s.m.parks[c].Claimed?
    case Drop(c) =>
      && c in s.m.parks && s.m.parks[c].Queued?
      && !(StillAt(s.m, s.m.parks[c].n, s.m.parks[c].at) && !(s.m.parks[c].n in s.m.sups && s.m.sups[s.m.parks[c].n].Gone?))
    case HearEnd(c) =>
      c in s.m.parks && s.m.parks[c].Answered? && !StillAt(s.m, s.m.parks[c].n, s.m.parks[c].at)
    case Release(c) => c in s.m.parks && s.m.parks[c].Over?
  }

  predicate CanEdge(s: Node, st: EdgeStep) {
    match st
    case Listen(r) => r !in s.m.reqs
    case Look(r, host, n) =>
      && r in s.m.reqs && s.m.reqs[r].Listening?
      && Serves(s.m.vms, host, n)
    case Resume(r) => r in s.m.reqs && s.m.reqs[r].Holding? && s.m.reqs[r].heard
    case GiveUp(r) => r in s.m.reqs
  }

  ghost predicate Can(s: Node, st: Step) {
    match st
    case Api(st) => CanApi(s, st)
    case Build(st) => CanBuild(s, st)
    case Task(st) => CanTask(s, st)
    case Super(st) => CanSup(s, st)
    case Parking(st) => CanPark(s, st)
    case Edge(st) => CanEdge(s, st)
    case Restart(repairs, stuck, to) =>
      CanRepairAll(AfterCrash(s), repairs) && IsReconciled(s.range, RepairedAll(AfterCrash(s), repairs), stuck, to)
  }

  function WithHost(d: Disk, a: Addr, h: Host): Disk { d.(host := d.host[a := h]) }

  /** Host state that is all gone is not listed, and what is left has no VMM. */
  function SweepGone(d: Disk, a: Addr): Disk {
    if d.HostAt(a).objs == {} then d.(host := d.host - {a}, leaked := d.leaked - {a})
    else d.(host := d.host[a := d.HostAt(a).(vmm := None)], leaked := d.leaked + {a})
  }

  function WithDir(d: Disk, n: Name, left: Option<Dir>): Disk {
    if left.Some? then d.(parked := d.parked[n := left.value]) else d.(parked := d.parked - {n})
  }

  function MarkRow(rows: map<Name, Row>, n: Name, reason: Reason): map<Name, Row> {
    if n in rows then rows[n := rows[n].MarkedEnded(reason)] else rows
  }

  function WithPc(m: Mem, n: Name, pc: Pc): Mem
    requires n in m.jobs
  {
    m.(jobs := m.jobs[n := m.jobs[n].(pc := pc)])
  }

  function WithSup(m: Mem, n: Name, sup: Sup): Mem { m.(sups := m.sups[n := sup]) }

  /** A supervisor has done with a park. */
  function WithPark(m: Mem, n: Name, sup: Sup, c: Inst, park: Park): Mem {
    m.(sups := m.sups[n := sup], parks := m.parks[c := park])
  }

  /** A task ends: its entry becomes `e`, and it still has `drop` to remove and everyone to notify. */
  function Settle(m: Mem, n: Name, e: Option<Entry>, drop: Option<Log>): Mem {
    m.(vms := if e.Some? then m.vms[n := e.value] else m.vms - {n},
       jobs := m.jobs - {n},
       tails := m.tails[m.nextTail := drop],
       nextTail := m.nextTail + 1)
  }

  function Heard(h: Hold): Hold { h.(heard := true) }

  /** What a request finds for the App `n`: something to hold for, or an answer (or a wake to try). */
  function Found(m: Mem, r: Req, n: Name, heard: bool): Mem
    requires n in m.vms
  {
    match m.vms[n]
    case Running(_, _, _, inst) =>
      if inst in m.parks then m.(reqs := m.reqs[r := Holding(n, OnPark(inst), heard)])
      else m.(reqs := m.reqs - {r})
    case Starting(_, _, _) => m.(reqs := m.reqs[r := Holding(n, OnStart, heard)])
    case Ended(_) => m.(reqs := m.reqs - {r})
  }

  function DoApi(s: Node, st: ApiStep): Node
    requires CanApi(s, st)
  {
    match st
    case ReserveStart(n, route, a) => DoReserveStart(s, n, route, a)
    case RefuseStart => s.(m := s.m.(nextLog := s.m.nextLog + 1))
    case ReserveWake(n, a) => DoReserveWake(s, n, a)
    case Remove(n) => DoRemove(s, n)
    case RemoveFails(n, left) =>
      if s.m.vms[n].Parked() then
        s.(d := WithDir(s.d, n, left).(damaged := s.d.damaged + {n}))
      else s
    case AddApp(n, host) => s.(d := s.d.(apps := s.d.apps[n := host]))
    case RemoveApp(n) => s.(d := s.d.(apps := s.d.apps - {n}))
    case ClaimPark(n) => s.(m := s.m.(parks := s.m.parks[s.m.vms[n].inst := Claimed(n)]))
  }

  /** A put-back's rename, which takes the place of a file that is there. */
  function PutBack(d: Disk, n: Name, f: SnapFile, c: Content): Disk
    requires n in d.parked
  {
    d.(parked := d.parked[n := d.parked[n][f := c]],
       damaged := if f in d.parked[n] && d.parked[n][f] != c then d.damaged + {n} else d.damaged)
  }

  function DoBuild(s: Node, st: BuildStep): Node
    requires CanBuild(s, st)
  {
    match st
    case Enter(n) =>
      var a := s.m.vms[n].addr;
      s.(d := WithHost(s.d, a, s.d.HostAt(a).(objs := s.d.HostAt(a).objs + {Netns})), m := WithPc(s.m, n, Building))
    case EnterErr(n, made) =>
      var a := s.m.vms[n].addr;
      s.(d := if made then WithHost(s.d, a, s.d.HostAt(a).(objs := s.d.HostAt(a).objs + {Netns})) else s.d,
         m := WithPc(s.m, n, if s.m.jobs[n].kind.FromSnapshot? then PuttingBackCwd({VmState, Memory, Rootfs}) else Unwinding))
    case MakeObj(n, o) =>
      var a := s.m.vms[n].addr;
      s.(d := WithHost(s.d, a, s.d.HostAt(a).(objs := s.d.HostAt(a).objs + {o})))
    case MakeLog(n) => s.(d := s.d.(logs := s.d.logs + {s.m.vms[n].log}))
    case SpawnVmm(n) =>
      var a := s.m.vms[n].addr;
      s.(d := WithHost(s.d, a, s.d.HostAt(a).(vmm := Some(s.d.nextProc), objs := s.d.HostAt(a).objs + {Cgroup}))
              .(alive := s.d.alive[s.d.nextProc := a], nextProc := s.d.nextProc + 1))
    case WriteRootfs(n) =>
      var a := s.m.vms[n].addr;
      var h := s.d.HostAt(a);
      s.(d := WithHost(s.d, a, h.(jail := h.jail[Rootfs := RootfsOf(h.vmm.value)], objs := h.objs + {JailDir})))
    case MoveIn(n, f) =>
      var a := s.m.vms[n].addr;
      var h := s.d.HostAt(a);
      s.(d := WithHost(s.d, a, h.(jail := h.jail[f := s.d.parked[n][f]], objs := h.objs + {JailDir}))
              .(parked := s.d.parked[n := s.d.parked[n] - {f}]))
    case BuildOk(n) =>
      // From now on the guest writes to its rootfs.
      var a := s.m.vms[n].addr;
      var h := s.d.HostAt(a);
      s.(d := WithHost(s.d, a, h.(jail := h.jail[Rootfs := RootfsOf(h.vmm.value)])),
         m := WithPc(s.m, n, Built(h.vmm.value)))
    case BuildErr(n) =>
      s.(m := WithPc(s.m, n, if s.m.jobs[n].kind.FromSnapshot? then PuttingBack else Unwinding))
    case MoveBack(n, f) =>
      var a := s.m.vms[n].addr;
      var h := s.d.HostAt(a);
      s.(d := WithHost(PutBack(s.d, n, f, h.jail[f]), a, h.(jail := h.jail - {f})))
    case TakeCwd(n, f, found) =>
      s.(d := PutBack(s.d, n, f, found), m := WithPc(s.m, n, PuttingBackCwd(s.m.jobs[n].pc.left - {f})))
    case PutBackDone(n) =>
      s.(m := WithPc(s.m, n, Unwinding),
         d := if n in s.d.parked && Whole(s.d.parked[n]) then s.d else s.d.(damaged := s.d.damaged + {n}))
    case Undo(n, o) =>
      var a := s.m.vms[n].addr;
      var h := s.d.HostAt(a);
      s.(d := WithHost(s.d, a, h.(objs := h.objs - {o}, jail := if o.JailDir? then map[] else h.jail)))
    case UndoPart(n, left) =>
      var a := s.m.vms[n].addr;
      s.(d := WithHost(s.d, a, s.d.HostAt(a).(jail := left)))
    case UnwindDone(n) =>
      s.(m := WithPc(s.m, n, if s.m.jobs[n].pc.Unwinding? then Failed else Destroyed),
         d := SweepGone(s.d, s.m.vms[n].addr))
  }

  function DoTask(s: Node, st: TaskStep): Node
    requires CanTask(s, st)
  {
    match st
    case Insert(n, ok) =>
      var e := s.m.vms[n];
      var p := s.m.jobs[n].pc.proc;
      if ok then
        s.(d := s.d.(rows := s.d.rows[n := RowRunning(e.addr, p, e.log, e.route)], stale := s.d.stale - {n}),
           m := WithPc(s.m, n, Recorded(p)))
      else s.(m := WithPc(s.m, n, Unrecorded))
    case MarkForced(n, ok) =>
      s.(d := if ok then s.d.(rows := MarkRow(s.d.rows, n, Forced), stale := s.d.stale - {n})
              else s.d.(stale := s.d.stale + {n}, damaged := s.d.damaged + {n}),
         m := WithPc(s.m, n, Marked))
    case Forget(n) => DoForget(s, n)
    case PutBackParked(n) => s.(m := Settle(s.m, n, Some(Ended(s.m.jobs[n].kind.from)), None))
    case EndForced(n) =>
      s.(m := Settle(s.m, n, Some(Ended(s.m.jobs[n].kind.from.(reason := Forced))), None))
    case Tidy(n) => DoTidy(s, n)
    case Supervise(n) => DoSupervise(s, n)
    case DropLog(t) =>
      s.(d := s.d.(logs := s.d.logs - {s.m.tails[t].value}), m := s.m.(tails := s.m.tails[t := None]))
    case Notify(t) =>
      s.(m := s.m.(tails := s.m.tails - {t},
                   reqs := map r | r in s.m.reqs :: Heard(s.m.reqs[r])))
  }

  function DoSup(s: Node, st: SupStep): Node
    requires CanSup(s, st)
  {
    match st
    case VmmDies(p) => s.(d := s.d.(alive := s.d.alive - {p}))
    case ParkBegin(n) =>
      var queue := s.m.sups[n].queue;
      s.(d := s.d.(parked := s.d.parked[n := s.d.DirAt(n)]), m := WithSup(s.m, n, Snapping(queue[0], queue[1..])))
    case ParkRefused(n) =>
      var queue := s.m.sups[n].queue;
      s.(m := WithPark(s.m, n, Up(queue[1..]), queue[0], Over(n)))
    case ParkResumed(n, left) =>
      s.(d := WithDir(s.d, n, left), m := WithPark(s.m, n, Up(s.m.sups[n].queue), s.m.sups[n].claim, Over(n)))
    case ParkKill(n) =>
      s.(d := s.d.(alive := s.d.Killed(s.m.vms[n].addr)), m := WithSup(s.m, n, Moving(s.m.sups[n].claim)))
    case ParkMove(n, f) =>
      var a := s.m.vms[n].addr;
      var h := s.d.HostAt(a);
      s.(d := WithHost(s.d, a, h.(jail := if f.Rootfs? then h.jail - {Rootfs} else h.jail))
              .(parked := s.d.parked[n := s.d.DirAt(n)[f := OfPark(h.vmm.value)]]))
    case ParkOk(n) =>
      s.(d := s.d.(damaged := s.d.damaged - {n}),
         m := WithPark(s.m, n, Down(Reason.Parked), s.m.sups[n].claim, Answered(n, s.m.vms[n].inst)))
    case ParkLost(n, left) =>
      s.(d := WithDir(s.d, n, left).(alive := s.d.Killed(s.m.vms[n].addr),
              damaged := if left.Some? && left.value != map[] then s.d.damaged + {n} else s.d.damaged),
         m := WithPark(s.m, n, Down(Forced), s.m.sups[n].claim, Over(n)))
    case SupEnd(n, reason) =>
      s.(d := s.d.(alive := s.d.Killed(s.m.vms[n].addr)), m := WithSup(s.m, n, Down(reason)))
    case SupGone(n) =>
      s.(d := SweepGone(s.d, s.m.vms[n].addr), m := WithSup(s.m, n, Gone(s.m.sups[n].reason)))
    case RecordEnd(n, ok) => DoRecordEnd(s, n, ok)
  }

  /** The park goes to the VM that runs under the name now, unless its channel is closed already. */
  function Sent(m: Mem, c: Inst, n: Name): Mem {
    if !Owned(m, n) || m.sups[n].Gone? then m.(parks := m.parks[c := Over(n)])
    else
      var sup := m.sups[n];
      m.(parks := m.parks[c := Queued(n, m.vms[n].inst)],
         sups := if sup.Up? then m.sups[n := Up(sup.queue + [c])]
                 else if sup.Snapping? then m.sups[n := Snapping(sup.claim, sup.queue + [c])]
                 else m.sups)
  }

  function DoPark(s: Node, st: ParkStep): Node
    requires CanPark(s, st)
  {
    match st
    case Send(c) => s.(m := Sent(s.m, c, s.m.parks[c].n))
    case Drop(c) => s.(m := s.m.(parks := s.m.parks[c := Over(s.m.parks[c].n)]))
    case HearEnd(c) => s.(m := s.m.(parks := s.m.parks[c := Over(s.m.parks[c].n)]))
    case Release(c) =>
      s.(m := s.m.(parks := s.m.parks - {c},
                   tails := s.m.tails[s.m.nextTail := None],
                   nextTail := s.m.nextTail + 1))
  }

  function DoEdge(s: Node, st: EdgeStep): Node
    requires CanEdge(s, st)
  {
    match st
    case Listen(r) => s.(m := s.m.(reqs := s.m.reqs[r := Listening(false)]))
    case Look(r, host, n) => s.(m := Found(s.m, r, n, s.m.reqs[r].heard))
    case Resume(r) => s.(m := s.m.(reqs := s.m.reqs[r := Listening(false)]))
    case GiveUp(r) => s.(m := s.m.(reqs := s.m.reqs - {r}))
  }

  /** The state after a step. */
  ghost function Do(s: Node, st: Step): Node
    requires Can(s, st)
  {
    match st
    case Api(st) => DoApi(s, st)
    case Build(st) => DoBuild(s, st)
    case Task(st) => DoTask(s, st)
    case Super(st) => DoSup(s, st)
    case Parking(st) => DoPark(s, st)
    case Edge(st) => DoEdge(s, st)
    case Restart(repairs, stuck, to) => to
  }

  function DoReserveStart(s: Node, n: Name, route: Option<Route>, a: Addr): Node
    requires CanApi(s, ReserveStart(n, route, a))
  {
    var replaced := if n in s.m.vms then Some(s.m.vms[n].rec) else None;
    s.(m := s.m.(vms := s.m.vms[n := Starting(a, s.m.nextLog, route)],
                 jobs := s.m.jobs[n := Job(Fresh(replaced), Entering)],
                 nextLog := s.m.nextLog + 1))
  }

  function DoReserveWake(s: Node, n: Name, a: Addr): Node
    requires CanApi(s, ReserveWake(n, a))
  {
    var rec := s.m.vms[n].rec;
    s.(m := s.m.(vms := s.m.vms[n := Starting(a, rec.log, rec.route)],
                 jobs := s.m.jobs[n := Job(FromSnapshot(rec), Entering)]))
  }

  function DoRemove(s: Node, n: Name): Node
    requires CanApi(s, Remove(n))
  {
    var d := if s.m.vms[n].Parked() then WithDir(s.d, n, None).(damaged := s.d.damaged - {n}) else s.d;
    s.(d := d.(rows := d.rows - {n}, logs := d.logs - {s.m.vms[n].rec.log}, stale := d.stale - {n}),
       m := s.m.(vms := s.m.vms - {n}))
  }

  function DoForget(s: Node, n: Name): Node
    requires CanTask(s, Forget(n))
  {
    var back := s.m.jobs[n].kind.replaced;
    s.(m := Settle(s.m, n, if back.Some? then Some(Ended(back.value)) else None, Some(s.m.vms[n].log)))
  }

  function DoTidy(s: Node, n: Name): Node
    requires CanTask(s, Tidy(n))
  {
    var job := s.m.jobs[n];
    var d :=
      match job.kind
      case Fresh(replaced) =>
        if replaced.Some? then s.d.(logs := s.d.logs - {replaced.value.log}) else s.d
      case FromSnapshot(_) =>
        if s.d.DirAt(n) == map[] then s.d.(parked := s.d.parked - {n}) else s.d;
    s.(d := d, m := WithPc(s.m, n, Tidied(job.pc.proc)))
  }

  function DoSupervise(s: Node, n: Name): Node
    requires CanTask(s, Supervise(n))
  {
    var e := s.m.vms[n];
    var m := Settle(s.m, n, Some(Running(e.addr, e.log, e.route, s.m.nextInst)), None);
    s.(m := m.(sups := m.sups[n := Up([])], nextInst := m.nextInst + 1))
  }

  function DoRecordEnd(s: Node, n: Name, ok: bool): Node
    requires CanSup(s, RecordEnd(n, ok))
  {
    var e := s.m.vms[n];
    var reason := s.m.sups[n].reason;
    s.(d := if ok then s.d.(rows := MarkRow(s.d.rows, n, reason), stale := s.d.stale - {n})
            else s.d.(stale := s.d.stale + {n}),
       m := s.m.(vms := s.m.vms[n := Ended(Record(reason, e.log, e.route))], sups := s.m.sups - {n}))
  }

  // --------------------------------------------------- crash and reconcile --

  /** A wake is under way that has not got its snapshot, whole, in the parked directory. */
  predicate MidWake(s: Node, n: Name) {
    && n in s.m.jobs && s.m.jobs[n].kind.FromSnapshot? && s.m.jobs[n].pc !in {Unwinding, Failed, Marked}
    && !(n in s.d.parked && Whole(s.d.parked[n]))
  }

  /** What an agent that dies leaves behind. */
  function AfterCrash(s: Node): Disk {
    s.d.(damaged := s.d.damaged + (set n | n in s.m.jobs && MidWake(s, n)))
  }

  predicate LiveRow(d: Disk, n: Name) {
    n in d.rows && d.rows[n].RowRunning? && d.rows[n].proc in d.alive
  }

  predicate DeadRow(d: Disk, n: Name) {
    n in d.rows && d.rows[n].RowRunning? && d.rows[n].proc !in d.alive
  }

  predicate RecordedLog(d: Disk, l: Log) { exists n :: n in d.rows && d.rows[n].LogOf() == l }

  predicate ParkedRow(d: Disk, n: Name) { n in d.rows && d.rows[n].Parked() }

  /** The addresses of the VMs a starting agent takes back. */
  function LiveAddrs(d: Disk): set<Addr> {
    set n | n in d.rows && LiveRow(d, n) :: d.rows[n].addr
  }

  /** One action of `reconcile`, or a VMM ending, killed or not, meanwhile. */
  datatype Repair =
    | DropUnrecordedLog(l: Log)
    | DropUnownedSnapshot(n: Name, left: Option<Dir>)
    | MarkDead(n: Name)
    | VmmEnds(p: Proc)
    | RemoveLeftover(a: Addr, objs: set<Obj>, files: set<SnapFile>)

  ghost predicate CanRepair(d: Disk, r: Repair) {
    match r
    case DropUnrecordedLog(l) => l in d.logs && !RecordedLog(d, l)
    case DropUnownedSnapshot(n, left) => n in d.parked && !ParkedRow(d, n) && Leaves(d.parked[n], left)
    case MarkDead(n) => DeadRow(d, n)
    case VmmEnds(p) => p in d.alive
    case RemoveLeftover(a, objs, files) => a in d.host && a !in LiveAddrs(d) && !d.Lives(a)
  }

  ghost function Repaired(d: Disk, r: Repair): Disk
    requires CanRepair(d, r)
  {
    match r
    case DropUnrecordedLog(l) => d.(logs := d.logs - {l})
    case DropUnownedSnapshot(n, left) => WithDir(d, n, left)
    case MarkDead(n) => d.(rows := MarkRow(d.rows, n, AgentDown))
    case VmmEnds(p) => d.(alive := d.alive - {p})
    case RemoveLeftover(a, objs, files) =>
      var h := d.host[a];
      if h.objs <= objs then d.(host := d.host - {a})
      else d.(host := d.host[a := h.(objs := h.objs - objs, jail := if JailDir in objs then map[] else h.jail - files)])
  }

  /** A `reconcile` that the agent does not live to finish: any of its actions, in any order. */
  ghost predicate CanRepairAll(d: Disk, rs: seq<Repair>)
    decreases |rs|
  {
    rs == [] || (CanRepair(d, rs[0]) && CanRepairAll(Repaired(d, rs[0]), rs[1..]))
  }

  ghost function RepairedAll(d: Disk, rs: seq<Repair>): Disk
    requires CanRepairAll(d, rs)
    decreases |rs|
  {
    if rs == [] then d else RepairedAll(Repaired(d, rs[0]), rs[1..])
  }

  function LeftOf(dir: Dir, files: set<SnapFile>): Dir { map f | f in dir && f in files :: dir[f] }

  /** What `reconcile` tries to remove and cannot: host objects, files in jails, files of snapshots, and logs. */
  datatype Stuck = Stuck(
    objs: map<Addr, set<Obj>>, jails: map<Addr, set<SnapFile>>, files: map<Name, set<SnapFile>>, logs: set<Log>)
  {
    function ObjsAt(a: Addr): set<Obj> { if a in objs then objs[a] else {} }
    function JailAt(a: Addr): set<SnapFile> { if a in jails then jails[a] else {} }
    /** What a clean-up leaves at an address: no VMM, and what it could not remove. */
    function LeftAt(h: Host, a: Addr): Host {
      var kept := h.objs * ObjsAt(a);
      Host(kept, None, if JailDir in kept then LeftOf(h.jail, JailAt(a)) else map[])
    }
  }

  const NothingStuck := Stuck(map[], map[], map[], {})

  function ReconciledRows(d: Disk): map<Name, Row> {
    map n | n in d.rows ::
      if d.rows[n].RowRunning? && d.rows[n].proc !in d.alive then d.rows[n].MarkedEnded(AgentDown) else d.rows[n]
  }

  function ReconciledLogs(d: Disk, stuck: Stuck): set<Log> {
    set l | l in d.logs && (RecordedLog(d, l) || l in stuck.logs)
  }

  function ReconciledDirs(d: Disk, stuck: Stuck): map<Name, Dir> {
    map n | n in d.parked && (ParkedRow(d, n) || n in stuck.files) ::
      if ParkedRow(d, n) then d.parked[n] else LeftOf(d.parked[n], stuck.files[n])
  }

  /** What has touched a parked VM's snapshot, and what is left of others'. */
  function ReconciledDamage(d: Disk, stuck: Stuck): set<Name> {
    (set n | n in d.damaged && ParkedRow(d, n))
    + (set n | n in d.parked && !ParkedRow(d, n) && n in stuck.files && LeftOf(d.parked[n], stuck.files[n]) != map[])
  }

  function ReconciledHost(d: Disk, stuck: Stuck): map<Addr, Host> {
    var live := LiveAddrs(d);
    map a | a in d.host && (a in live || stuck.LeftAt(d.host[a], a).objs != {}) ::
      if a in live then d.host[a] else stuck.LeftAt(d.host[a], a)
  }

  function ReconciledLeaks(d: Disk, stuck: Stuck): set<Addr> {
    set a | a in d.host && a !in LiveAddrs(d) && stuck.LeftAt(d.host[a], a).objs != {}
  }

  function ReconciledVmms(d: Disk): map<Proc, Addr> {
    var live := LiveAddrs(d);
    map p | p in d.alive && d.alive[p] in live :: d.alive[p]
  }

  /** The disk once `reconcile` is done. */
  function ReconciledDisk(d: Disk, stuck: Stuck): Disk {
    Disk(ReconciledRows(d), d.apps, ReconciledDirs(d, stuck), ReconciledLogs(d, stuck), ReconciledHost(d, stuck),
         ReconciledVmms(d), d.nextProc, ReconciledLeaks(d, stuck), ReconciledDamage(d, stuck), {})
  }

  /** The entry a record becomes. */
  predicate Restored(d: Disk, n: Name, e: Entry)
    requires n in d.rows
  {
    if LiveRow(d, n) then
      e.Running? && e == Running(d.rows[n].addr, d.rows[n].log, d.rows[n].route, e.inst)
    else if DeadRow(d, n) then e == Ended(Record(AgentDown, d.rows[n].log, d.rows[n].route))
    else e == Ended(d.rows[n].rec)
  }

  /** `to` is the Node a starting agent makes of the disk `d`. */
  predicate IsReconciled(range: set<Addr>, d: Disk, stuck: Stuck, to: Node) {
    && to.range == range
    && to.d == ReconciledDisk(d, stuck)
    && to.m.vms.Keys == d.rows.Keys
    && (forall n | n in d.rows :: Restored(d, n, to.m.vms[n]))
    && to.m.jobs == map[] && to.m.parks == map[] && to.m.tails == map[] && to.m.reqs == map[]
    && (forall n | n in to.m.vms :: n in to.m.sups <==> to.m.vms[n].Running?)
    && (forall n | n in to.m.sups :: n in to.m.vms && to.m.sups[n] == Up([]))
    && (forall n | n in to.m.vms && to.m.vms[n].Running? :: to.m.vms[n].inst < to.m.nextInst)
    && (forall n1, n2 | n1 in to.m.vms && n2 in to.m.vms && to.m.vms[n1].Running? && to.m.vms[n2].Running? &&
          to.m.vms[n1].inst == to.m.vms[n2].inst :: n1 == n2)
    && (forall l | l in d.logs :: l < to.m.nextLog)
  }
}
