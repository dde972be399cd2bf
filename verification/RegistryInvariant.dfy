/** What every step of the registry keeps. */
module RegistryInvariant {
  import opened Common
  import opened Registry

  // ------------------------------------------------- one name at a time --

  /** The host state under one address, and whether its VMM runs. */
  datatype Place = Place(host: Host, listed: bool, leaked: bool, lives: bool)

  /** Everything the Node holds under one name. */
  datatype Cell = Cell(
    entry: Option<Entry>,
    job: Option<Job>,
    sup: Option<Sup>,
    row: Option<Row>,
    rowLives: bool,
    dir: Option<Dir>,
    stale: bool,
    damaged: bool,
    hasLog: bool,
    hasOldLog: bool,
    at: Place)
  {
    function DirOr(): Dir { if dir.Some? then dir.value else map[] }
  }

  function Get<K, V>(m: map<K, V>, k: K): Option<V> { if k in m then Some(m[k]) else None }

  function PlaceAt(d: Disk, a: Addr): Place {
    Place(d.HostAt(a), a in d.host, a in d.leaked, d.Lives(a))
  }

  const Nowhere := Place(NoHost, false, false, false)

  /** The log a failed start would go back to. */
  function OldLog(job: Option<Job>): Option<Log> {
    if job.Some? && job.value.kind.Fresh? && job.value.kind.replaced.Some? && !job.value.pc.Tidied?
    then Some(job.value.kind.replaced.value.log) else None
  }

  function CellAt(s: Node, n: Name): Cell {
    var entry := Get(s.m.vms, n);
    var job := Get(s.m.jobs, n);
    var row := Get(s.d.rows, n);
    Cell(entry, job, Get(s.m.sups, n), row,
         row.Some? && row.value.RowRunning? && row.value.proc in s.d.alive,
         Get(s.d.parked, n), n in s.d.stale, n in s.d.damaged,
         entry.Some? && entry.value.LogOf() in s.d.logs,
         OldLog(job).Some? && OldLog(job).value in s.d.logs,
         if entry.Some? && entry.value.Holds() then PlaceAt(s.d, entry.value.addr) else Nowhere)
  }

  // Tasks, supervisors and entries match one to one.
  predicate Shaped(c: Cell) {
    && (c.job.Some? <==> c.entry.Some? && c.entry.value.Starting?)
    && (c.sup.Some? <==> c.entry.Some? && c.entry.value.Running?)
    && (c.job.Some? ==> JobShape(c.entry.value, c.job.value))
  }

  predicate JobShape(e: Entry, job: Job)
    requires e.Starting?
  {
    match job.kind
    case Fresh(replaced) =>
      && (replaced.Some? ==> !replaced.value.reason.Parked? && replaced.value.log != e.log)
      && !job.pc.PuttingBack? && !job.pc.PuttingBackCwd? && !job.pc.Marked?
    case FromSnapshot(from) =>
      from.reason.Parked? && from.log == e.log && from.route == e.route
  }

  // The host state is what a start, a wake or a supervisor has made, or has unwound.
  predicate Hosted(c: Cell) {
    && (c.rowLives ==> c.row.Some? && c.row.value.RowRunning? && c.at.host.vmm == Some(c.row.value.proc))
    && (c.job.Some? ==> JobHost(c.at, c.job.value.pc))
    && (c.sup.Some? ==> SupHost(c.at, c.row, c.sup.value))
  }

  predicate Unwound(at: Place) { !at.lives && at.host.vmm.None? && (at.listed ==> at.leaked) }

  predicate JobHost(at: Place, pc: Pc) {
    match pc
    case Built(p) => at.host.vmm == Some(p)
    case Recorded(p) => at.host.vmm == Some(p)
    case Tidied(p) => at.host.vmm == Some(p)
    case Failed => Unwound(at)
    case Destroyed => Unwound(at)
    case Marked => Unwound(at)
    case _ => true
  }

  predicate SupHost(at: Place, row: Option<Row>, sup: Sup) {
    && row.Some? && row.value.RowRunning? && (at.host.vmm.Some? ==> at.host.vmm == Some(row.value.proc))
    && match sup
       case Up(_) => at.host.vmm.Some?
       case Snapping(_, _) => at.host.vmm.Some?
       case Moving(_) => at.host.vmm.Some? && !at.lives
       case Down(_) => !at.lives
       case Gone(_) => Unwound(at)
  }

  /** What a name not on record as running amounts to: its Ended VM, or the one put back. */
  function Says(entry: Option<Entry>, job: Option<Job>): Option<Record> {
    if entry.None? then None
    else if entry.value.Ended? then Some(entry.value.rec)
    else if job.None? then None
    else if job.value.pc.Marked? && job.value.kind.FromSnapshot? then
      Some(job.value.kind.from.(reason := Forced))
    else job.value.kind.PutBack()
  }

  /** The name is on record as running. */
  predicate OnRecord(c: Cell) {
    c.entry.Some? &&
    (c.entry.value.Running? || (c.job.Some? && (c.job.value.pc.Recorded? || c.job.value.pc.Tidied?)))
  }

  // The row says what the entry says, or what a failure would put back.
  predicate RowAgrees(c: Cell) {
    if OnRecord(c) then
      && !c.stale && c.row.Some? && c.row.value.RowRunning? && c.entry.value.Holds()
      && c.row.value.addr == c.entry.value.addr
      && c.row.value.log == c.entry.value.log
      && c.row.value.route == c.entry.value.route
      && (c.entry.value.Starting? ==> c.job.Some? && c.row.value.proc == c.job.value.pc.proc)
    else
      var says := Says(c.entry, c.job);
      if c.stale then says.Some? && c.row.Some? && StaleRow(c, c.row.value, says.value)
      else if says.Some? then c.row == Some(RowEnded(says.value))
      else c.row.None?
  }

  /** The row a failed `mark_ended` leaves: it still says the VM runs, or is parked. */
  predicate StaleRow(c: Cell, row: Row, rec: Record) {
    && row.LogOf() == rec.log && row.RouteOf() == rec.route
    && ((row.RowRunning? && !c.rowLives) ||
        (row == RowEnded(rec.(reason := Reason.Parked)) && rec.reason.Forced? && c.damaged))
  }

  predicate NeedsLog(job: Job) {
    job.kind.FromSnapshot? || job.pc.Built? || job.pc.Recorded? || job.pc.Tidied?
  }

  // No log a record names, or would name again, is removed.
  predicate LogsKept(c: Cell) {
    && (OldLog(c.job).Some? ==> c.hasOldLog)
    && (c.entry.Some? && !c.entry.value.Starting? ==> c.hasLog)
    && (c.job.Some? && NeedsLog(c.job.value) ==> c.hasLog)
  }

  predicate HasWhole(dir: Option<Dir>) { dir.Some? && Whole(dir.value) }

  // A parked VM has its snapshot; a wake has what it moved in its jail, and the rest where it was; nobody else has
  // any of one.
  predicate SnapshotKept(c: Cell) {
    if c.entry.None? then c.DirOr() == map[]
    else if c.entry.value.Ended? then
      if c.entry.value.Parked() then HasWhole(c.dir) else c.DirOr() == map[]
    else if c.entry.value.Starting? then c.job.Some? ==> SnapshotOfJob(c, c.job.value)
    else c.sup.Some? ==> SnapshotOfSup(c, c.sup.value)
  }

  predicate SnapshotOfJob(c: Cell, job: Job) {
    if job.kind.Fresh? then c.DirOr() == map[]
    else match job.pc
      case Entering => HasWhole(c.dir)
      case Building => c.dir.Some? && Whole(c.at.host.jail + c.dir.value)
      case PuttingBack => c.dir.Some? && Whole(c.at.host.jail + c.dir.value)
      case PuttingBackCwd(_) => HasWhole(c.dir)
      case Unwinding => HasWhole(c.dir)
      case Failed => HasWhole(c.dir)
      case _ => c.DirOr() == map[]
  }

  predicate SnapshotOfSup(c: Cell, sup: Sup) {
    match sup
    case Moving(_) => c.at.host.vmm.Some? ==> forall f | f in c.DirOr() :: c.DirOr()[f] == OfPark(c.at.host.vmm.value)
    case Down(r) => if r.Parked? then HasWhole(c.dir) else c.DirOr() == map[]
    case Gone(r) => if r.Parked? then HasWhole(c.dir) else c.DirOr() == map[]
    case _ => c.DirOr() == map[]
  }

  predicate Local(c: Cell) {
    && Shaped(c) && Hosted(c) && RowAgrees(c) && LogsKept(c)
    && (!c.damaged ==> SnapshotKept(c))
  }

  ghost predicate EachName(s: Node) { forall n: Name :: Local(CellAt(s, n)) }

  // --------------------------------------------------------- across names --

  // Addresses are held by one entry each, and come from the VM range.
  ghost predicate Addresses(s: Node) {
    && (forall n | n in s.m.vms && s.m.vms[n].Holds() :: s.m.vms[n].addr in s.range)
    && Exclusive(s.m.vms)
  }

  ghost predicate Exclusive(vms: map<Name, Entry>) {
    forall n1, n2 | n1 in vms && n2 in vms && vms[n1].Holds() && vms[n2].Holds() &&
      vms[n1].addr == vms[n2].addr :: n1 == n2
  }

  // Host objects belong to a held address, unless an undo step failed there; VMMs always do.
  ghost predicate HostOwned(range: set<Addr>, d: Disk, held: set<Addr>) {
    && (forall a | a in d.host :: a in range && (a in held || (a in d.leaked && d.host[a].vmm.None?)))
    && (forall p | p in d.alive :: ProcOwned(d, held, p))
    && (forall a | a in d.host && d.host[a].vmm.Some? :: VmmAt(d, a, d.host[a].vmm.value))
    && (forall n | n in d.rows && d.rows[n].RowRunning? :: d.rows[n].proc < d.nextProc)
  }

  ghost predicate ProcOwned(d: Disk, held: set<Addr>, p: Proc)
    requires p in d.alive
  {
    var a := d.alive[p];
    p < d.nextProc && a in held && a in d.host && d.host[a].vmm == Some(p)
  }

  predicate VmmAt(d: Disk, a: Addr, p: Proc) { p < d.nextProc && (p in d.alive ==> d.alive[p] == a) }

  ghost predicate UsesLog(m: Mem, n: Name, l: Log) {
    n in m.vms && (m.vms[n].LogOf() == l || OldLog(Get(m.jobs, n)) == Some(l))
  }

  // No log is shared, and the next number is new.
  ghost predicate LogsDistinct(logs: set<Log>, m: Mem) {
    && (forall n1, n2, l | UsesLog(m, n1, l) && UsesLog(m, n2, l) :: n1 == n2)
    && (forall n, l: Log | UsesLog(m, n, l) :: l < m.nextLog)
    && (forall l | l in logs :: l < m.nextLog)
    && (forall t, n | t in m.tails && m.tails[t].Some? :: !UsesLog(m, n, m.tails[t].value))
    && (forall t | t in m.tails && m.tails[t].Some? :: m.tails[t].value < m.nextLog)
  }

  // A held request that has not been told to look again has a task that will tell it.
  ghost predicate Requests(m: Mem) { forall r | r in m.reqs :: WillHear(m, m.reqs[r]) }

  ghost predicate Pending(m: Mem) { exists t :: t in m.tails }

  ghost predicate WillHear(m: Mem, h: Hold) {
    h.Holding? && !h.heard ==>
      Pending(m) || (match h.on case OnStart => h.name in m.jobs case OnPark(i) => i in m.parks)
  }

  ghost predicate Numbered(m: Mem) {
    && (forall n | n in m.vms && m.vms[n].Running? :: m.vms[n].inst < m.nextInst)
    && (forall n1, n2 | n1 in m.vms && n2 in m.vms && m.vms[n1].Running? && m.vms[n2].Running? &&
          m.vms[n1].inst == m.vms[n2].inst :: n1 == n2)
    && (forall t | t in m.tails :: t < m.nextTail)
  }

  /** A park that was sent is where the supervisor it went to has it, or that VM has ended. */
  predicate ParkFits(m: Mem, c: Inst, p: Park) {
    && c < m.nextInst
    && match p
       case Claimed(_) => true
       case Queued(n, at) =>
         && at < m.nextInst
         && (StillAt(m, n, at) && n in m.sups && m.sups[n].Up? ==> c in m.sups[n].queue)
         && (StillAt(m, n, at) && n in m.sups && m.sups[n].Snapping? ==> c == m.sups[n].claim || c in m.sups[n].queue)
       case Answered(n, at) =>
         at < m.nextInst && (StillAt(m, n, at) && n in m.sups ==> m.sups[n].Down? || m.sups[n].Gone?)
       case Over(_) => true
  }

  predicate IsQueued(m: Mem, n: Name, at: Inst, c: Inst) { c in m.parks && m.parks[c] == Queued(n, at) }

  predicate QueueFits(m: Mem, n: Name, at: Inst, queue: seq<Inst>) {
    && (forall i | 0 <= i < |queue| :: IsQueued(m, n, at, queue[i]))
    && (forall i, j | 0 <= i < j < |queue| :: queue[i] != queue[j])
  }

  /** A supervisor has only parks that were sent to it, each once. */
  predicate SupFits(m: Mem, n: Name, at: Inst, sup: Sup) {
    match sup
    case Up(queue) => QueueFits(m, n, at, queue)
    case Snapping(c, queue) => IsQueued(m, n, at, c) && c !in queue && QueueFits(m, n, at, queue)
    case Moving(c) => IsQueued(m, n, at, c)
    case _ => true
  }

  ghost predicate Parks(m: Mem) {
    && (forall c | c in m.parks :: ParkFits(m, c, m.parks[c]))
    && (forall n | Owned(m, n) :: SupFits(m, n, m.vms[n].inst, m.sups[n]))
  }

  ghost predicate Names(s: Node) { s.m.vms.Keys !! s.d.apps.Keys && s.d.rows.Keys <= s.m.vms.Keys }

  ghost predicate Inv(s: Node) {
    && EachName(s)
    && Addresses(s) && HostOwned(s.range, s.d, Held(s.m.vms)) && LogsDistinct(s.d.logs, s.m)
    && Requests(s.m) && Numbered(s.m) && Parks(s.m) && Names(s)
  }

  // -------------------------------------------------------------- helpers --

  /** The name a step of a task or a supervisor is about, if it is about one. */
  function TaskName(st: TaskStep): Option<Name> { if st.DropLog? || st.Notify? then None else Some(st.n) }

  function SupName(st: SupStep): Option<Name> { if st.VmmDies? then None else Some(st.n) }

  function HeldBy(vms: map<Name, Entry>, n: Name): set<Addr> {
    if n in vms && vms[n].Holds() then {vms[n].addr} else {}
  }

  lemma HeldAfter(vms: map<Name, Entry>, n: Name, e: Entry)
    requires Exclusive(vms)
    ensures Held(vms[n := e]) == Held(vms) - HeldBy(vms, n) + (if e.Holds() then {e.addr} else {})
  {
    var vms' := vms[n := e];
    forall a | a in Held(vms) - HeldBy(vms, n) ensures a in Held(vms') {
      var n' :| n' in vms && vms[n'].Holds() && vms[n'].addr == a;
      assert n' in vms' && vms'[n'] == vms[n'];
    }
    if e.Holds() { assert n in vms' && vms'[n] == e; }
  }

  lemma HeldWithout(vms: map<Name, Entry>, n: Name)
    requires Exclusive(vms)
    ensures Held(vms - {n}) == Held(vms) - HeldBy(vms, n)
  {
    var vms' := vms - {n};
    forall a | a in Held(vms) - HeldBy(vms, n) ensures a in Held(vms') {
      var n' :| n' in vms && vms[n'].Holds() && vms[n'].addr == a;
      assert n' in vms' && vms'[n'] == vms[n'];
    }
  }

  // --------------------------------------------------------- name by name --

  /** A step that changes only `n`'s cell, and leaves that one sound. */
  lemma OneName(s: Node, s': Node, n: Name)
    requires EachName(s)
    requires forall n' | n' != n :: CellAt(s', n') == CellAt(s, n')
    requires Local(CellAt(s', n))
    ensures EachName(s')
  {
    forall n': Name ensures Local(CellAt(s', n')) {
      if n' != n { assert CellAt(s', n') == CellAt(s, n'); }
    }
  }

  lemma NoName(s: Node, s': Node)
    requires EachName(s)
    requires forall n :: CellAt(s', n) == CellAt(s, n)
    ensures EachName(s')
  {
    forall n: Name ensures Local(CellAt(s', n)) { assert CellAt(s', n) == CellAt(s, n); }
  }

  /** Adding or removing a log of another's is nothing to `n'`. */
  lemma OthersLogs(s: Node, n': Name, l: Log)
    requires LogsDistinct(s.d.logs, s.m)
    requires !UsesLog(s.m, n', l)
    ensures CellAt(s, n').entry.Some? ==> CellAt(s, n').entry.value.LogOf() != l
    ensures OldLog(CellAt(s, n').job).Some? && n' in s.m.vms ==> OldLog(CellAt(s, n').job).value != l
  {
  }

  /** A file moved into the jail is found there. */
  lemma MovedWhole(dir: Dir, jail: Dir, f: SnapFile)
    requires f in dir
    ensures jail[f := dir[f]] + (dir - {f}) == jail + dir
  {
  }

  /** A file moved back that the directory had not is found there. */
  lemma MovedBackWhole(dir: Dir, jail: Dir, f: SnapFile)
    requires f in jail && (f in dir ==> dir[f] == jail[f])
    ensures (jail - {f}) + dir[f := jail[f]] == jail + dir
  {
  }

  lemma SweptElsewhere(d: Disk, a: Addr, a': Addr)
    requires a' != a
    ensures PlaceAt(SweepGone(d, a), a') == PlaceAt(d, a')
  {
  }

  lemma SweptHere(d: Disk, a: Addr)
    requires !d.Lives(a)
    ensures Unwound(PlaceAt(SweepGone(d, a), a))
  {
  }

  lemma ReserveStartOthers(s: Node, n: Name, route: Option<Route>, a: Addr, n': Name)
    requires CanApi(s, ReserveStart(n, route, a)) && n' != n
    ensures CellAt(DoApi(s, ReserveStart(n, route, a)), n') == CellAt(s, n')
  {
  }

  lemma ReserveStartOwn(s: Node, n: Name, route: Option<Route>, a: Addr)
    requires Local(CellAt(s, n)) && CanApi(s, ReserveStart(n, route, a))
    requires n in s.m.vms ==> s.m.vms[n].rec.log < s.m.nextLog
    ensures Local(CellAt(DoApi(s, ReserveStart(n, route, a)), n))
  {
  }

  lemma ReserveStartCell(s: Node, n: Name, route: Option<Route>, a: Addr)
    requires EachName(s) && LogsDistinct(s.d.logs, s.m) && CanApi(s, ReserveStart(n, route, a))
    ensures EachName(DoApi(s, ReserveStart(n, route, a)))
  {
    assert n in s.m.vms ==> UsesLog(s.m, n, s.m.vms[n].rec.log);
    ReserveStartOwn(s, n, route, a);
    forall n' | n' != n ensures CellAt(DoApi(s, ReserveStart(n, route, a)), n') == CellAt(s, n') {
      ReserveStartOthers(s, n, route, a, n');
    }
    OneName(s, DoApi(s, ReserveStart(n, route, a)), n);
  }

  /** Nothing is left at an address no entry holds, but what an undo step failed to remove. */
  lemma FreeIsUnwound(s: Node, a: Addr)
    requires HostOwned(s.range, s.d, Held(s.m.vms)) && a !in Held(s.m.vms)
    ensures Unwound(PlaceAt(s.d, a))
  {
  }

  lemma ReserveWakeOthers(s: Node, n: Name, a: Addr, n': Name)
    requires Exclusive(s.m.vms) && CanApi(s, ReserveWake(n, a)) && n' != n
    ensures CellAt(DoApi(s, ReserveWake(n, a)), n') == CellAt(s, n')
  {
  }

  lemma ReserveWakeOwn(s: Node, n: Name, a: Addr)
    requires Local(CellAt(s, n)) && CanApi(s, ReserveWake(n, a)) && Unwound(PlaceAt(s.d, a))
    ensures Local(CellAt(DoApi(s, ReserveWake(n, a)), n))
  {
  }

  lemma ReserveWakeCell(s: Node, n: Name, a: Addr)
    requires EachName(s) && Addresses(s) && HostOwned(s.range, s.d, Held(s.m.vms)) && CanApi(s, ReserveWake(n, a))
    ensures EachName(DoApi(s, ReserveWake(n, a)))
  {
    FreeIsUnwound(s, a);
    ReserveWakeOwn(s, n, a);
    forall n' | n' != n ensures CellAt(DoApi(s, ReserveWake(n, a)), n') == CellAt(s, n') { ReserveWakeOthers(s, n, a, n'); }
    OneName(s, DoApi(s, ReserveWake(n, a)), n);
  }

  lemma RemoveOthers(s: Node, n: Name, n': Name)
    requires Shaped(CellAt(s, n')) && CanApi(s, Remove(n)) && n' != n && !UsesLog(s.m, n', s.m.vms[n].rec.log)
    ensures CellAt(DoApi(s, Remove(n)), n') == CellAt(s, n')
  {
  }

  lemma RemoveOwn(s: Node, n: Name)
    requires Local(CellAt(s, n)) && CanApi(s, Remove(n))
    ensures Local(CellAt(DoApi(s, Remove(n)), n))
  {
  }

  lemma RemoveCell(s: Node, n: Name)
    requires EachName(s) && HostOwned(s.range, s.d, Held(s.m.vms)) && LogsDistinct(s.d.logs, s.m) && CanApi(s, Remove(n))
    ensures EachName(DoApi(s, Remove(n)))
  {
    assert Local(CellAt(s, n));
    RemoveOwn(s, n);
    forall n' | n' != n ensures CellAt(DoApi(s, Remove(n)), n') == CellAt(s, n') {
      assert Local(CellAt(s, n'));
      assert UsesLog(s.m, n, s.m.vms[n].rec.log);
      RemoveOthers(s, n, n');
    }
    OneName(s, DoApi(s, Remove(n)), n);
  }

  lemma RemoveFailsOthers(s: Node, n: Name, left: Option<Dir>, n': Name)
    requires Exclusive(s.m.vms) && CanApi(s, RemoveFails(n, left)) && n' != n
    ensures CellAt(DoApi(s, RemoveFails(n, left)), n') == CellAt(s, n')
  {
  }

  lemma RemoveFailsOwn(s: Node, n: Name, left: Option<Dir>)
    requires Local(CellAt(s, n)) && CanApi(s, RemoveFails(n, left))
    ensures Local(CellAt(DoApi(s, RemoveFails(n, left)), n))
  {
  }

  lemma RemoveFailsCell(s: Node, n: Name, left: Option<Dir>)
    requires EachName(s) && Addresses(s) && CanApi(s, RemoveFails(n, left))
    ensures EachName(DoApi(s, RemoveFails(n, left)))
  {
    RemoveFailsOwn(s, n, left);
    forall n' | n' != n ensures CellAt(DoApi(s, RemoveFails(n, left)), n') == CellAt(s, n') { RemoveFailsOthers(s, n, left, n'); }
    OneName(s, DoApi(s, RemoveFails(n, left)), n);
  }

  lemma EnterOthers(s: Node, n: Name, n': Name)
    requires Exclusive(s.m.vms) && CanBuild(s, Enter(n)) && n' != n
    ensures CellAt(DoBuild(s, Enter(n)), n') == CellAt(s, n')
  {
  }

  lemma EnterOwn(s: Node, n: Name)
    requires Local(CellAt(s, n)) && CanBuild(s, Enter(n))
    ensures Local(CellAt(DoBuild(s, Enter(n)), n))
  {
  }

  lemma EnterCell(s: Node, n: Name)
    requires EachName(s) && Addresses(s) && CanBuild(s, Enter(n))
    ensures EachName(DoBuild(s, Enter(n)))
  {
    EnterOwn(s, n);
    forall n' | n' != n ensures CellAt(DoBuild(s, Enter(n)), n') == CellAt(s, n') { EnterOthers(s, n, n'); }
    OneName(s, DoBuild(s, Enter(n)), n);
  }

  lemma EnterErrOthers(s: Node, n: Name, made: bool, n': Name)
    requires Exclusive(s.m.vms) && CanBuild(s, EnterErr(n, made)) && n' != n
    ensures CellAt(DoBuild(s, EnterErr(n, made)), n') == CellAt(s, n')
  {
  }

  lemma EnterErrOwn(s: Node, n: Name, made: bool)
    requires Local(CellAt(s, n)) && CanBuild(s, EnterErr(n, made))
    ensures Local(CellAt(DoBuild(s, EnterErr(n, made)), n))
  {
  }

  lemma EnterErrCell(s: Node, n: Name, made: bool)
    requires EachName(s) && Addresses(s) && CanBuild(s, EnterErr(n, made))
    ensures EachName(DoBuild(s, EnterErr(n, made)))
  {
    EnterErrOwn(s, n, made);
    forall n' | n' != n ensures CellAt(DoBuild(s, EnterErr(n, made)), n') == CellAt(s, n') { EnterErrOthers(s, n, made, n'); }
    OneName(s, DoBuild(s, EnterErr(n, made)), n);
  }

  lemma MakeObjOthers(s: Node, n: Name, o: Obj, n': Name)
    requires Exclusive(s.m.vms) && CanBuild(s, MakeObj(n, o)) && n' != n
    ensures CellAt(DoBuild(s, MakeObj(n, o)), n') == CellAt(s, n')
  {
  }

  lemma MakeObjOwn(s: Node, n: Name, o: Obj)
    requires Local(CellAt(s, n)) && CanBuild(s, MakeObj(n, o))
    ensures Local(CellAt(DoBuild(s, MakeObj(n, o)), n))
  {
  }

  lemma MakeObjCell(s: Node, n: Name, o: Obj)
    requires EachName(s) && Addresses(s) && CanBuild(s, MakeObj(n, o))
    ensures EachName(DoBuild(s, MakeObj(n, o)))
  {
    MakeObjOwn(s, n, o);
    forall n' | n' != n ensures CellAt(DoBuild(s, MakeObj(n, o)), n') == CellAt(s, n') { MakeObjOthers(s, n, o, n'); }
    OneName(s, DoBuild(s, MakeObj(n, o)), n);
  }

  lemma MakeLogOthers(s: Node, n: Name, n': Name)
    requires Shaped(CellAt(s, n')) && CanBuild(s, MakeLog(n)) && n' != n && !UsesLog(s.m, n', s.m.vms[n].log)
    ensures CellAt(DoBuild(s, MakeLog(n)), n') == CellAt(s, n')
  {
  }

  lemma MakeLogOwn(s: Node, n: Name)
    requires Local(CellAt(s, n)) && CanBuild(s, MakeLog(n))
    ensures Local(CellAt(DoBuild(s, MakeLog(n)), n))
  {
  }

  lemma MakeLogCell(s: Node, n: Name)
    requires EachName(s) && LogsDistinct(s.d.logs, s.m) && CanBuild(s, MakeLog(n))
    ensures EachName(DoBuild(s, MakeLog(n)))
  {
    assert UsesLog(s.m, n, s.m.vms[n].log);
    MakeLogOwn(s, n);
    forall n' | n' != n ensures CellAt(DoBuild(s, MakeLog(n)), n') == CellAt(s, n') {
      assert Local(CellAt(s, n'));
      MakeLogOthers(s, n, n');
    }
    OneName(s, DoBuild(s, MakeLog(n)), n);
  }

  lemma SpawnVmmOthers(s: Node, n: Name, n': Name)
    requires Exclusive(s.m.vms) && CanBuild(s, SpawnVmm(n)) && n' != n
    requires CellAt(s, n').row.Some? && CellAt(s, n').row.value.RowRunning? ==> CellAt(s, n').row.value.proc < s.d.nextProc
    requires CellAt(s, n').at.host.vmm.Some? ==> CellAt(s, n').at.host.vmm.value < s.d.nextProc
    ensures CellAt(DoBuild(s, SpawnVmm(n)), n') == CellAt(s, n')
  {
  }

  lemma SpawnVmmOwn(s: Node, n: Name)
    requires Local(CellAt(s, n)) && CanBuild(s, SpawnVmm(n))
    requires CellAt(s, n).row.Some? && CellAt(s, n).row.value.RowRunning? ==> CellAt(s, n).row.value.proc < s.d.nextProc
    ensures Local(CellAt(DoBuild(s, SpawnVmm(n)), n))
  {
  }

  lemma SpawnVmmCell(s: Node, n: Name)
    requires EachName(s) && Addresses(s) && HostOwned(s.range, s.d, Held(s.m.vms)) && CanBuild(s, SpawnVmm(n))
    ensures EachName(DoBuild(s, SpawnVmm(n)))
  {
    SpawnVmmOwn(s, n);
    forall n' | n' != n ensures CellAt(DoBuild(s, SpawnVmm(n)), n') == CellAt(s, n') { SpawnVmmOthers(s, n, n'); }
    OneName(s, DoBuild(s, SpawnVmm(n)), n);
  }

  lemma WriteRootfsOthers(s: Node, n: Name, n': Name)
    requires Exclusive(s.m.vms) && CanBuild(s, WriteRootfs(n)) && n' != n
    ensures CellAt(DoBuild(s, WriteRootfs(n)), n') == CellAt(s, n')
  {
  }

  lemma WriteRootfsOwn(s: Node, n: Name)
    requires Local(CellAt(s, n)) && CanBuild(s, WriteRootfs(n))
    ensures Local(CellAt(DoBuild(s, WriteRootfs(n)), n))
  {
  }

  lemma WriteRootfsCell(s: Node, n: Name)
    requires EachName(s) && Addresses(s) && CanBuild(s, WriteRootfs(n))
    ensures EachName(DoBuild(s, WriteRootfs(n)))
  {
    WriteRootfsOwn(s, n);
    forall n' | n' != n ensures CellAt(DoBuild(s, WriteRootfs(n)), n') == CellAt(s, n') { WriteRootfsOthers(s, n, n'); }
    OneName(s, DoBuild(s, WriteRootfs(n)), n);
  }

  lemma MoveInOthers(s: Node, n: Name, f: SnapFile, n': Name)
    requires Exclusive(s.m.vms) && CanBuild(s, MoveIn(n, f)) && n' != n
    ensures CellAt(DoBuild(s, MoveIn(n, f)), n') == CellAt(s, n')
  {
  }

  lemma MoveInOwn(s: Node, n: Name, f: SnapFile)
    requires Local(CellAt(s, n)) && CanBuild(s, MoveIn(n, f))
    ensures Local(CellAt(DoBuild(s, MoveIn(n, f)), n))
  {
    MovedWhole(s.d.parked[n], s.d.HostAt(s.m.vms[n].addr).jail, f);
  }

  lemma MoveInCell(s: Node, n: Name, f: SnapFile)
    requires EachName(s) && Addresses(s) && HostOwned(s.range, s.d, Held(s.m.vms)) && CanBuild(s, MoveIn(n, f))
    ensures EachName(DoBuild(s, MoveIn(n, f)))
  {
    assert Local(CellAt(s, n));
    MoveInOwn(s, n, f);
    forall n' | n' != n ensures CellAt(DoBuild(s, MoveIn(n, f)), n') == CellAt(s, n') {
      assert Local(CellAt(s, n'));
      MoveInOthers(s, n, f, n');
    }
    OneName(s, DoBuild(s, MoveIn(n, f)), n);
  }

  lemma BuildOkOthers(s: Node, n: Name, n': Name)
    requires Exclusive(s.m.vms) && CanBuild(s, BuildOk(n)) && n' != n
    ensures CellAt(DoBuild(s, BuildOk(n)), n') == CellAt(s, n')
  {
  }

  lemma BuildOkOwn(s: Node, n: Name)
    requires Local(CellAt(s, n)) && CanBuild(s, BuildOk(n))
    ensures Local(CellAt(DoBuild(s, BuildOk(n)), n))
  {
  }

  lemma BuildOkCell(s: Node, n: Name)
    requires EachName(s) && Addresses(s) && CanBuild(s, BuildOk(n))
    ensures EachName(DoBuild(s, BuildOk(n)))
  {
    BuildOkOwn(s, n);
    forall n' | n' != n ensures CellAt(DoBuild(s, BuildOk(n)), n') == CellAt(s, n') { BuildOkOthers(s, n, n'); }
    OneName(s, DoBuild(s, BuildOk(n)), n);
  }

  lemma BuildErrOthers(s: Node, n: Name, n': Name)
    requires Exclusive(s.m.vms) && CanBuild(s, BuildErr(n)) && n' != n
    ensures CellAt(DoBuild(s, BuildErr(n)), n') == CellAt(s, n')
  {
  }

  lemma BuildErrOwn(s: Node, n: Name)
    requires Local(CellAt(s, n)) && CanBuild(s, BuildErr(n))
    ensures Local(CellAt(DoBuild(s, BuildErr(n)), n))
  {
  }

  lemma BuildErrCell(s: Node, n: Name)
    requires EachName(s) && Addresses(s) && CanBuild(s, BuildErr(n))
    ensures EachName(DoBuild(s, BuildErr(n)))
  {
    BuildErrOwn(s, n);
    forall n' | n' != n ensures CellAt(DoBuild(s, BuildErr(n)), n') == CellAt(s, n') { BuildErrOthers(s, n, n'); }
    OneName(s, DoBuild(s, BuildErr(n)), n);
  }

  lemma MoveBackOthers(s: Node, n: Name, f: SnapFile, n': Name)
    requires Exclusive(s.m.vms) && CanBuild(s, MoveBack(n, f)) && n' != n
    ensures CellAt(DoBuild(s, MoveBack(n, f)), n') == CellAt(s, n')
  {
  }

  /** The cell of a wake after one of its put-back's renames. */
  function MovedBackCell(c: Cell, f: SnapFile): Cell
    requires c.dir.Some? && f in c.at.host.jail
  {
    var jail := c.at.host.jail;
    c.(dir := Some(c.dir.value[f := jail[f]]), at := c.at.(host := c.at.host.(jail := jail - {f}), listed := true),
       damaged := c.damaged || (f in c.dir.value && c.dir.value[f] != jail[f]))
  }

  lemma MovedBackSound(c: Cell, f: SnapFile)
    requires Local(c) && c.job.Some? && c.job.value.pc.PuttingBack? && c.dir.Some? && f in c.at.host.jail
    ensures Local(MovedBackCell(c, f))
  {
    var dir, jail := c.dir.value, c.at.host.jail;
    if f in dir ==> dir[f] == jail[f] { MovedBackWhole(dir, jail, f); }
  }

  lemma MoveBackOwn(s: Node, n: Name, f: SnapFile)
    requires Local(CellAt(s, n)) && CanBuild(s, MoveBack(n, f))
    ensures Local(CellAt(DoBuild(s, MoveBack(n, f)), n))
  {
    assert CellAt(DoBuild(s, MoveBack(n, f)), n) == MovedBackCell(CellAt(s, n), f);
    MovedBackSound(CellAt(s, n), f);
  }

  lemma MoveBackCell(s: Node, n: Name, f: SnapFile)
    requires EachName(s) && Addresses(s) && HostOwned(s.range, s.d, Held(s.m.vms)) && CanBuild(s, MoveBack(n, f))
    ensures EachName(DoBuild(s, MoveBack(n, f)))
  {
    assert Local(CellAt(s, n));
    MoveBackOwn(s, n, f);
    forall n' | n' != n ensures CellAt(DoBuild(s, MoveBack(n, f)), n') == CellAt(s, n') {
      assert Local(CellAt(s, n'));
      MoveBackOthers(s, n, f, n');
    }
    OneName(s, DoBuild(s, MoveBack(n, f)), n);
  }

  lemma TakeCwdOthers(s: Node, n: Name, f: SnapFile, found: Content, n': Name)
    requires Exclusive(s.m.vms) && CanBuild(s, TakeCwd(n, f, found)) && n' != n
    ensures CellAt(DoBuild(s, TakeCwd(n, f, found)), n') == CellAt(s, n')
  {
  }

  lemma TakeCwdOwn(s: Node, n: Name, f: SnapFile, found: Content)
    requires Local(CellAt(s, n)) && CanBuild(s, TakeCwd(n, f, found))
    ensures Local(CellAt(DoBuild(s, TakeCwd(n, f, found)), n))
  {
  }

  lemma TakeCwdCell(s: Node, n: Name, f: SnapFile, found: Content)
    requires EachName(s) && Addresses(s) && CanBuild(s, TakeCwd(n, f, found))
    ensures EachName(DoBuild(s, TakeCwd(n, f, found)))
  {
    TakeCwdOwn(s, n, f, found);
    forall n' | n' != n ensures CellAt(DoBuild(s, TakeCwd(n, f, found)), n') == CellAt(s, n') { TakeCwdOthers(s, n, f, found, n'); }
    OneName(s, DoBuild(s, TakeCwd(n, f, found)), n);
  }

  lemma PutBackDoneOthers(s: Node, n: Name, n': Name)
    requires Exclusive(s.m.vms) && CanBuild(s, PutBackDone(n)) && n' != n
    ensures CellAt(DoBuild(s, PutBackDone(n)), n') == CellAt(s, n')
  {
  }

  lemma PutBackDoneOwn(s: Node, n: Name)
    requires Local(CellAt(s, n)) && CanBuild(s, PutBackDone(n))
    ensures Local(CellAt(DoBuild(s, PutBackDone(n)), n))
  {
  }

  lemma PutBackDoneCell(s: Node, n: Name)
    requires EachName(s) && Addresses(s) && HostOwned(s.range, s.d, Held(s.m.vms)) && CanBuild(s, PutBackDone(n))
    ensures EachName(DoBuild(s, PutBackDone(n)))
  {
    assert Local(CellAt(s, n));
    PutBackDoneOwn(s, n);
    forall n' | n' != n ensures CellAt(DoBuild(s, PutBackDone(n)), n') == CellAt(s, n') {
      assert Local(CellAt(s, n'));
      PutBackDoneOthers(s, n, n');
    }
    OneName(s, DoBuild(s, PutBackDone(n)), n);
  }

  lemma UndoOthers(s: Node, n: Name, o: Obj, n': Name)
    requires Exclusive(s.m.vms) && CanBuild(s, Undo(n, o)) && n' != n
    ensures CellAt(DoBuild(s, Undo(n, o)), n') == CellAt(s, n')
  {
  }

  lemma UndoOwn(s: Node, n: Name, o: Obj)
    requires Local(CellAt(s, n)) && CanBuild(s, Undo(n, o))
    ensures Local(CellAt(DoBuild(s, Undo(n, o)), n))
  {
  }

  lemma UndoCell(s: Node, n: Name, o: Obj)
    requires EachName(s) && Addresses(s) && CanBuild(s, Undo(n, o))
    ensures EachName(DoBuild(s, Undo(n, o)))
  {
    UndoOwn(s, n, o);
    forall n' | n' != n ensures CellAt(DoBuild(s, Undo(n, o)), n') == CellAt(s, n') { UndoOthers(s, n, o, n'); }
    OneName(s, DoBuild(s, Undo(n, o)), n);
  }

  lemma UndoPartOthers(s: Node, n: Name, left: Dir, n': Name)
    requires Exclusive(s.m.vms) && CanBuild(s, UndoPart(n, left)) && n' != n
    ensures CellAt(DoBuild(s, UndoPart(n, left)), n') == CellAt(s, n')
  {
  }

  lemma UndoPartOwn(s: Node, n: Name, left: Dir)
    requires Local(CellAt(s, n)) && CanBuild(s, UndoPart(n, left))
    ensures Local(CellAt(DoBuild(s, UndoPart(n, left)), n))
  {
  }

  lemma UndoPartCell(s: Node, n: Name, left: Dir)
    requires EachName(s) && Addresses(s) && CanBuild(s, UndoPart(n, left))
    ensures EachName(DoBuild(s, UndoPart(n, left)))
  {
    UndoPartOwn(s, n, left);
    forall n' | n' != n ensures CellAt(DoBuild(s, UndoPart(n, left)), n') == CellAt(s, n') { UndoPartOthers(s, n, left, n'); }
    OneName(s, DoBuild(s, UndoPart(n, left)), n);
  }

  lemma UnwindDoneOthers(s: Node, n: Name, n': Name)
    requires CanBuild(s, UnwindDone(n)) && n' != n
    requires n' in s.m.vms && s.m.vms[n'].Holds() ==>
      PlaceAt(SweepGone(s.d, s.m.vms[n].addr), s.m.vms[n'].addr) == PlaceAt(s.d, s.m.vms[n'].addr)
    ensures CellAt(DoBuild(s, UnwindDone(n)), n') == CellAt(s, n')
  {
  }

  /** The cell of a task whose undo stack is empty. */
  function UnwoundCell(c: Cell, at: Place): Cell
    requires c.job.Some?
  {
    c.(job := Some(c.job.value.(pc := if c.job.value.pc.Unwinding? then Failed else Destroyed)), at := at)
  }

  lemma UnwoundSound(c: Cell, at: Place)
    requires Local(c) && c.job.Some? && (c.job.value.pc.Unwinding? || c.job.value.pc.Unrecorded?)
    requires Unwound(at) && !c.rowLives
    ensures Local(UnwoundCell(c, at))
  {
  }

  lemma UnwindDoneOwn(s: Node, n: Name)
    requires CanBuild(s, UnwindDone(n))
    ensures CellAt(DoBuild(s, UnwindDone(n)), n) ==
      UnwoundCell(CellAt(s, n), PlaceAt(SweepGone(s.d, s.m.vms[n].addr), s.m.vms[n].addr))
  {
  }

  lemma UnwindDoneCell(s: Node, n: Name)
    requires EachName(s) && Addresses(s) && HostOwned(s.range, s.d, Held(s.m.vms)) && CanBuild(s, UnwindDone(n))
    ensures EachName(DoBuild(s, UnwindDone(n)))
  {
    assert Local(CellAt(s, n));
    SweptHere(s.d, s.m.vms[n].addr);
    UnwoundSound(CellAt(s, n), PlaceAt(SweepGone(s.d, s.m.vms[n].addr), s.m.vms[n].addr));
    UnwindDoneOwn(s, n);
    forall n' | n' != n ensures CellAt(DoBuild(s, UnwindDone(n)), n') == CellAt(s, n') {
      if n' in s.m.vms && s.m.vms[n'].Holds() { SweptElsewhere(s.d, s.m.vms[n].addr, s.m.vms[n'].addr); }
      UnwindDoneOthers(s, n, n');
    }
    OneName(s, DoBuild(s, UnwindDone(n)), n);
  }

  lemma InsertOthers(s: Node, n: Name, ok: bool, n': Name)
    requires Exclusive(s.m.vms) && CanTask(s, Insert(n, ok)) && n' != n
    ensures CellAt(DoTask(s, Insert(n, ok)), n') == CellAt(s, n')
  {
  }

  lemma InsertOwn(s: Node, n: Name, ok: bool)
    requires Local(CellAt(s, n)) && CanTask(s, Insert(n, ok))
    ensures Local(CellAt(DoTask(s, Insert(n, ok)), n))
  {
  }

  lemma InsertCell(s: Node, n: Name, ok: bool)
    requires EachName(s) && Addresses(s) && HostOwned(s.range, s.d, Held(s.m.vms)) && CanTask(s, Insert(n, ok))
    ensures EachName(DoTask(s, Insert(n, ok)))
  {
    assert Local(CellAt(s, n));
    InsertOwn(s, n, ok);
    forall n' | n' != n ensures CellAt(DoTask(s, Insert(n, ok)), n') == CellAt(s, n') {
      assert Local(CellAt(s, n'));
      InsertOthers(s, n, ok, n');
    }
    OneName(s, DoTask(s, Insert(n, ok)), n);
  }

  lemma MarkForcedOthers(s: Node, n: Name, ok: bool, n': Name)
    requires Exclusive(s.m.vms) && CanTask(s, MarkForced(n, ok)) && n' != n
    ensures CellAt(DoTask(s, MarkForced(n, ok)), n') == CellAt(s, n')
  {
  }

  lemma MarkForcedOwn(s: Node, n: Name, ok: bool)
    requires Local(CellAt(s, n)) && CanTask(s, MarkForced(n, ok))
    ensures Local(CellAt(DoTask(s, MarkForced(n, ok)), n))
  {
  }

  lemma MarkForcedCell(s: Node, n: Name, ok: bool)
    requires EachName(s) && Addresses(s) && CanTask(s, MarkForced(n, ok))
    ensures EachName(DoTask(s, MarkForced(n, ok)))
  {
    MarkForcedOwn(s, n, ok);
    forall n' | n' != n ensures CellAt(DoTask(s, MarkForced(n, ok)), n') == CellAt(s, n') { MarkForcedOthers(s, n, ok, n'); }
    OneName(s, DoTask(s, MarkForced(n, ok)), n);
  }

  lemma ForgetOthers(s: Node, n: Name, n': Name)
    requires Exclusive(s.m.vms) && CanTask(s, Forget(n)) && n' != n
    ensures CellAt(DoTask(s, Forget(n)), n') == CellAt(s, n')
  {
  }

  lemma ForgetOwn(s: Node, n: Name)
    requires Local(CellAt(s, n)) && CanTask(s, Forget(n))
    ensures Local(CellAt(DoTask(s, Forget(n)), n))
  {
  }

  lemma ForgetCell(s: Node, n: Name)
    requires EachName(s) && Addresses(s) && CanTask(s, Forget(n))
    ensures EachName(DoTask(s, Forget(n)))
  {
    ForgetOwn(s, n);
    forall n' | n' != n ensures CellAt(DoTask(s, Forget(n)), n') == CellAt(s, n') { ForgetOthers(s, n, n'); }
    OneName(s, DoTask(s, Forget(n)), n);
  }

  lemma PutBackParkedOthers(s: Node, n: Name, n': Name)
    requires Exclusive(s.m.vms) && CanTask(s, PutBackParked(n)) && n' != n
    ensures CellAt(DoTask(s, PutBackParked(n)), n') == CellAt(s, n')
  {
  }

  lemma PutBackParkedOwn(s: Node, n: Name)
    requires Local(CellAt(s, n)) && CanTask(s, PutBackParked(n))
    ensures Local(CellAt(DoTask(s, PutBackParked(n)), n))
  {
  }

  lemma PutBackParkedCell(s: Node, n: Name)
    requires EachName(s) && Addresses(s) && CanTask(s, PutBackParked(n))
    ensures EachName(DoTask(s, PutBackParked(n)))
  {
    PutBackParkedOwn(s, n);
    forall n' | n' != n ensures CellAt(DoTask(s, PutBackParked(n)), n') == CellAt(s, n') { PutBackParkedOthers(s, n, n'); }
    OneName(s, DoTask(s, PutBackParked(n)), n);
  }

  lemma EndForcedOthers(s: Node, n: Name, n': Name)
    requires Exclusive(s.m.vms) && CanTask(s, EndForced(n)) && n' != n
    ensures CellAt(DoTask(s, EndForced(n)), n') == CellAt(s, n')
  {
  }

  lemma EndForcedOwn(s: Node, n: Name)
    requires Local(CellAt(s, n)) && CanTask(s, EndForced(n))
    ensures Local(CellAt(DoTask(s, EndForced(n)), n))
  {
  }

  lemma EndForcedCell(s: Node, n: Name)
    requires EachName(s) && Addresses(s) && CanTask(s, EndForced(n))
    ensures EachName(DoTask(s, EndForced(n)))
  {
    EndForcedOwn(s, n);
    forall n' | n' != n ensures CellAt(DoTask(s, EndForced(n)), n') == CellAt(s, n') { EndForcedOthers(s, n, n'); }
    OneName(s, DoTask(s, EndForced(n)), n);
  }

  lemma TidyOthers(s: Node, n: Name, n': Name)
    requires Shaped(CellAt(s, n')) && CanTask(s, Tidy(n)) && n' != n
    requires OldLog(Some(s.m.jobs[n])).Some? ==> !UsesLog(s.m, n', OldLog(Some(s.m.jobs[n])).value)
    ensures CellAt(DoTidy(s, n), n') == CellAt(s, n')
  {
  }

  lemma TidyOwn(s: Node, n: Name)
    requires Local(CellAt(s, n)) && CanTask(s, Tidy(n))
    ensures Local(CellAt(DoTask(s, Tidy(n)), n))
  {
  }

  lemma TidyCell(s: Node, n: Name)
    requires EachName(s) && HostOwned(s.range, s.d, Held(s.m.vms)) && LogsDistinct(s.d.logs, s.m) && CanTask(s, Tidy(n))
    ensures EachName(DoTask(s, Tidy(n)))
  {
    assert Local(CellAt(s, n));
    TidyOwn(s, n);
    forall n' | n' != n ensures CellAt(DoTask(s, Tidy(n)), n') == CellAt(s, n') {
      assert Local(CellAt(s, n'));
      var was := OldLog(Some(s.m.jobs[n]));
      assert was.Some? ==> UsesLog(s.m, n, was.value);
      TidyOthers(s, n, n');
    }
    OneName(s, DoTask(s, Tidy(n)), n);
  }

  lemma SuperviseOthers(s: Node, n: Name, n': Name)
    requires Exclusive(s.m.vms) && CanTask(s, Supervise(n)) && n' != n
    ensures CellAt(DoTask(s, Supervise(n)), n') == CellAt(s, n')
  {
  }

  lemma SuperviseOwn(s: Node, n: Name)
    requires Local(CellAt(s, n)) && CanTask(s, Supervise(n))
    ensures Local(CellAt(DoTask(s, Supervise(n)), n))
  {
  }

  lemma SuperviseCell(s: Node, n: Name)
    requires EachName(s) && Addresses(s) && CanTask(s, Supervise(n))
    ensures EachName(DoTask(s, Supervise(n)))
  {
    SuperviseOwn(s, n);
    forall n' | n' != n ensures CellAt(DoTask(s, Supervise(n)), n') == CellAt(s, n') { SuperviseOthers(s, n, n'); }
    OneName(s, DoTask(s, Supervise(n)), n);
  }

  lemma ParkBeginOthers(s: Node, n: Name, n': Name)
    requires Exclusive(s.m.vms) && CanSup(s, ParkBegin(n)) && n' != n
    ensures CellAt(DoSup(s, ParkBegin(n)), n') == CellAt(s, n')
  {
  }

  lemma ParkBeginOwn(s: Node, n: Name)
    requires Local(CellAt(s, n)) && CanSup(s, ParkBegin(n))
    ensures Local(CellAt(DoSup(s, ParkBegin(n)), n))
  {
  }

  lemma ParkBeginCell(s: Node, n: Name)
    requires EachName(s) && Addresses(s) && CanSup(s, ParkBegin(n))
    ensures EachName(DoSup(s, ParkBegin(n)))
  {
    ParkBeginOwn(s, n);
    forall n' | n' != n ensures CellAt(DoSup(s, ParkBegin(n)), n') == CellAt(s, n') { ParkBeginOthers(s, n, n'); }
    OneName(s, DoSup(s, ParkBegin(n)), n);
  }

  /** Which parks a supervisor has waiting is nothing to the rest of its cell. */
  lemma QueueIsNothing(c: Cell, sup: Sup)
    requires Local(c) && c.sup.Some?
    requires (c.sup.value.Up? && sup.Up?) || (c.sup.value.Snapping? && sup.Snapping?)
    ensures Local(c.(sup := Some(sup)))
  {
  }

  lemma ParkRefusedCell(s: Node, n: Name)
    requires EachName(s) && CanSup(s, ParkRefused(n))
    ensures EachName(DoSup(s, ParkRefused(n)))
  {
    var s' := DoSup(s, ParkRefused(n));
    assert CellAt(s', n) == CellAt(s, n).(sup := Some(s'.m.sups[n]));
    QueueIsNothing(CellAt(s, n), s'.m.sups[n]);
    forall n' | n' != n ensures CellAt(s', n') == CellAt(s, n') { }
    OneName(s, s', n);
  }

  lemma SendCell(s: Node, c: Inst)
    requires EachName(s) && CanPark(s, Send(c))
    ensures EachName(DoPark(s, Send(c)))
  {
    var s', n := DoPark(s, Send(c)), s.m.parks[c].n;
    forall n' | n' != n ensures CellAt(s', n') == CellAt(s, n') { }
    if s'.m.sups == s.m.sups {
      assert CellAt(s', n) == CellAt(s, n);
    } else {
      assert CellAt(s', n) == CellAt(s, n).(sup := Some(s'.m.sups[n]));
      QueueIsNothing(CellAt(s, n), s'.m.sups[n]);
    }
    OneName(s, s', n);
  }

  lemma ParkResumedOthers(s: Node, n: Name, left: Option<Dir>, n': Name)
    requires Exclusive(s.m.vms) && CanSup(s, ParkResumed(n, left)) && n' != n
    ensures CellAt(DoSup(s, ParkResumed(n, left)), n') == CellAt(s, n')
  {
  }

  lemma ParkResumedOwn(s: Node, n: Name, left: Option<Dir>)
    requires Local(CellAt(s, n)) && CanSup(s, ParkResumed(n, left))
    ensures Local(CellAt(DoSup(s, ParkResumed(n, left)), n))
  {
  }

  lemma ParkResumedCell(s: Node, n: Name, left: Option<Dir>)
    requires EachName(s) && Addresses(s) && CanSup(s, ParkResumed(n, left))
    ensures EachName(DoSup(s, ParkResumed(n, left)))
  {
    ParkResumedOwn(s, n, left);
    forall n' | n' != n ensures CellAt(DoSup(s, ParkResumed(n, left)), n') == CellAt(s, n') { ParkResumedOthers(s, n, left, n'); }
    OneName(s, DoSup(s, ParkResumed(n, left)), n);
  }

  /** Killing the VMM at `n`'s address leaves alone what `n'` has. */
  predicate KillSpares(s: Node, n: Name, n': Name)
    requires n in s.m.vms && s.m.vms[n].Holds()
  {
    var alive := s.d.Killed(s.m.vms[n].addr);
    var c := CellAt(s, n');
    && (c.row.Some? && c.row.value.RowRunning? ==> (c.row.value.proc in alive <==> c.row.value.proc in s.d.alive))
    && (c.at.host.vmm.Some? ==> (c.at.host.vmm.value in alive <==> c.at.host.vmm.value in s.d.alive))
  }

  lemma OthersSpared(s: Node, n: Name, n': Name)
    requires Exclusive(s.m.vms) && HostOwned(s.range, s.d, Held(s.m.vms)) && Hosted(CellAt(s, n'))
    requires n in s.m.vms && s.m.vms[n].Holds() && n' != n
    ensures KillSpares(s, n, n')
  {
    var vmm := s.d.HostAt(s.m.vms[n].addr).vmm;
    if vmm.Some? { assert VmmAt(s.d, s.m.vms[n].addr, vmm.value); }
    var at := CellAt(s, n').at.host.vmm;
    if at.Some? { assert VmmAt(s.d, s.m.vms[n'].addr, at.value); }
  }

  lemma ParkKillOthers(s: Node, n: Name, n': Name)
    requires CanSup(s, ParkKill(n)) && n' != n && KillSpares(s, n, n')
    ensures CellAt(DoSup(s, ParkKill(n)), n') == CellAt(s, n')
  {
  }

  lemma ParkKillOwn(s: Node, n: Name)
    requires Local(CellAt(s, n)) && CanSup(s, ParkKill(n))
    ensures Local(CellAt(DoSup(s, ParkKill(n)), n))
  {
  }

  lemma ParkKillCell(s: Node, n: Name)
    requires EachName(s) && Addresses(s) && HostOwned(s.range, s.d, Held(s.m.vms)) && CanSup(s, ParkKill(n))
    ensures EachName(DoSup(s, ParkKill(n)))
  {
    assert Local(CellAt(s, n));
    ParkKillOwn(s, n);
    forall n' | n' != n ensures CellAt(DoSup(s, ParkKill(n)), n') == CellAt(s, n') {
      assert Local(CellAt(s, n'));
      OthersSpared(s, n, n');
      ParkKillOthers(s, n, n');
    }
    OneName(s, DoSup(s, ParkKill(n)), n);
  }

  lemma ParkMoveOthers(s: Node, n: Name, f: SnapFile, n': Name)
    requires Exclusive(s.m.vms) && CanSup(s, ParkMove(n, f)) && n' != n
    ensures CellAt(DoSup(s, ParkMove(n, f)), n') == CellAt(s, n')
  {
  }

  lemma ParkMoveOwn(s: Node, n: Name, f: SnapFile)
    requires Local(CellAt(s, n)) && CanSup(s, ParkMove(n, f))
    ensures Local(CellAt(DoSup(s, ParkMove(n, f)), n))
  {
    var s' := DoSup(s, ParkMove(n, f));
    assert s'.d.DirAt(n) == s.d.DirAt(n)[f := OfPark(s.d.HostAt(s.m.vms[n].addr).vmm.value)];
    assert CellAt(s, n).DirOr() == s.d.DirAt(n);
  }

  lemma ParkMoveCell(s: Node, n: Name, f: SnapFile)
    requires EachName(s) && Addresses(s) && HostOwned(s.range, s.d, Held(s.m.vms)) && CanSup(s, ParkMove(n, f))
    ensures EachName(DoSup(s, ParkMove(n, f)))
  {
    assert Local(CellAt(s, n));
    ParkMoveOwn(s, n, f);
    forall n' | n' != n ensures CellAt(DoSup(s, ParkMove(n, f)), n') == CellAt(s, n') {
      assert Local(CellAt(s, n'));
      ParkMoveOthers(s, n, f, n');
    }
    OneName(s, DoSup(s, ParkMove(n, f)), n);
  }

  lemma ParkOkOthers(s: Node, n: Name, n': Name)
    requires Exclusive(s.m.vms) && CanSup(s, ParkOk(n)) && n' != n
    ensures CellAt(DoSup(s, ParkOk(n)), n') == CellAt(s, n')
  {
  }

  lemma ParkOkOwn(s: Node, n: Name)
    requires Local(CellAt(s, n)) && CanSup(s, ParkOk(n))
    ensures Local(CellAt(DoSup(s, ParkOk(n)), n))
  {
    assert VmState in s.d.DirAt(n);
  }

  lemma ParkOkCell(s: Node, n: Name)
    requires EachName(s) && Addresses(s) && CanSup(s, ParkOk(n))
    ensures EachName(DoSup(s, ParkOk(n)))
  {
    ParkOkOwn(s, n);
    forall n' | n' != n ensures CellAt(DoSup(s, ParkOk(n)), n') == CellAt(s, n') { ParkOkOthers(s, n, n'); }
    OneName(s, DoSup(s, ParkOk(n)), n);
  }

  lemma ParkLostOthers(s: Node, n: Name, left: Option<Dir>, n': Name)
    requires CanSup(s, ParkLost(n, left)) && n' != n && KillSpares(s, n, n')
    ensures CellAt(DoSup(s, ParkLost(n, left)), n') == CellAt(s, n')
  {
  }

  lemma ParkLostOwn(s: Node, n: Name, left: Option<Dir>)
    requires Local(CellAt(s, n)) && CanSup(s, ParkLost(n, left))
    ensures Local(CellAt(DoSup(s, ParkLost(n, left)), n))
  {
  }

  lemma ParkLostCell(s: Node, n: Name, left: Option<Dir>)
    requires EachName(s) && Addresses(s) && HostOwned(s.range, s.d, Held(s.m.vms)) && CanSup(s, ParkLost(n, left))
    ensures EachName(DoSup(s, ParkLost(n, left)))
  {
    assert Local(CellAt(s, n));
    ParkLostOwn(s, n, left);
    forall n' | n' != n ensures CellAt(DoSup(s, ParkLost(n, left)), n') == CellAt(s, n') {
      assert Local(CellAt(s, n'));
      OthersSpared(s, n, n');
      ParkLostOthers(s, n, left, n');
    }
    OneName(s, DoSup(s, ParkLost(n, left)), n);
  }

  lemma SupEndOthers(s: Node, n: Name, reason: Reason, n': Name)
    requires CanSup(s, SupEnd(n, reason)) && n' != n && KillSpares(s, n, n')
    ensures CellAt(DoSup(s, SupEnd(n, reason)), n') == CellAt(s, n')
  {
  }

  lemma SupEndOwn(s: Node, n: Name, reason: Reason)
    requires Local(CellAt(s, n)) && CanSup(s, SupEnd(n, reason))
    ensures Local(CellAt(DoSup(s, SupEnd(n, reason)), n))
  {
  }

  lemma SupEndCell(s: Node, n: Name, reason: Reason)
    requires EachName(s) && Addresses(s) && HostOwned(s.range, s.d, Held(s.m.vms)) && CanSup(s, SupEnd(n, reason))
    ensures EachName(DoSup(s, SupEnd(n, reason)))
  {
    assert Local(CellAt(s, n));
    SupEndOwn(s, n, reason);
    forall n' | n' != n ensures CellAt(DoSup(s, SupEnd(n, reason)), n') == CellAt(s, n') {
      assert Local(CellAt(s, n'));
      OthersSpared(s, n, n');
      SupEndOthers(s, n, reason, n');
    }
    OneName(s, DoSup(s, SupEnd(n, reason)), n);
  }

  lemma SupGoneOthers(s: Node, n: Name, n': Name)
    requires CanSup(s, SupGone(n)) && n' != n
    requires n' in s.m.vms && s.m.vms[n'].Holds() ==> s.m.vms[n'].addr != s.m.vms[n].addr
    ensures CellAt(DoSup(s, SupGone(n)), n') == CellAt(s, n')
  {
    if n' in s.m.vms && s.m.vms[n'].Holds() { SweptElsewhere(s.d, s.m.vms[n].addr, s.m.vms[n'].addr); }
  }

  lemma SupGoneOwn(s: Node, n: Name)
    requires Local(CellAt(s, n)) && CanSup(s, SupGone(n))
    ensures Local(CellAt(DoSup(s, SupGone(n)), n))
  {
    SweptHere(s.d, s.m.vms[n].addr);
  }

  lemma SupGoneCell(s: Node, n: Name)
    requires EachName(s) && Addresses(s) && HostOwned(s.range, s.d, Held(s.m.vms)) && CanSup(s, SupGone(n))
    ensures EachName(DoSup(s, SupGone(n)))
  {
    assert Local(CellAt(s, n));
    SupGoneOwn(s, n);
    forall n' | n' != n ensures CellAt(DoSup(s, SupGone(n)), n') == CellAt(s, n') {
      assert Local(CellAt(s, n'));
      SupGoneOthers(s, n, n');
    }
    OneName(s, DoSup(s, SupGone(n)), n);
  }

  lemma RecordEndOthers(s: Node, n: Name, ok: bool, n': Name)
    requires Exclusive(s.m.vms) && CanSup(s, RecordEnd(n, ok)) && n' != n
    ensures CellAt(DoSup(s, RecordEnd(n, ok)), n') == CellAt(s, n')
  {
  }

  lemma RecordEndOwn(s: Node, n: Name, ok: bool)
    requires Local(CellAt(s, n)) && CanSup(s, RecordEnd(n, ok))
    ensures Local(CellAt(DoSup(s, RecordEnd(n, ok)), n))
  {
  }

  lemma RecordEndCell(s: Node, n: Name, ok: bool)
    requires EachName(s) && Addresses(s) && CanSup(s, RecordEnd(n, ok))
    ensures EachName(DoSup(s, RecordEnd(n, ok)))
  {
    RecordEndOwn(s, n, ok);
    forall n' | n' != n ensures CellAt(DoSup(s, RecordEnd(n, ok)), n') == CellAt(s, n') { RecordEndOthers(s, n, ok, n'); }
    OneName(s, DoSup(s, RecordEnd(n, ok)), n);
  }

  lemma VmmDiesCell(s: Node, p: Proc)
    requires EachName(s) && CanSup(s, VmmDies(p))
    ensures EachName(DoSup(s, VmmDies(p)))
  {
    var s' := DoSup(s, VmmDies(p));
    forall n: Name ensures Local(CellAt(s', n)) { assert Local(CellAt(s, n)); }
  }

  lemma DropLogCell(s: Node, t: nat)
    requires EachName(s) && LogsDistinct(s.d.logs, s.m) && CanTask(s, DropLog(t))
    ensures EachName(DoTask(s, DropLog(t)))
  {
    var s' := DoTask(s, DropLog(t));
    forall n: Name ensures CellAt(s', n) == CellAt(s, n) {
      OthersLogs(s, n, s.m.tails[t].value);
      assert Local(CellAt(s, n));
    }
    NoName(s, s');
  }
}
