/** The agent itself: the locked sections of its handlers and tasks, and `reconcile`, each against the step of
    the Node's state machine that it takes. */
module Agent {
  import opened Common
  import opened Registry
  import E = Edge
  import Logs
  import Ordered

  datatype Refusal =
    | ShuttingDown
    | AppNamed
    | AppHas(host: string)
    | AlreadyExists
    | IsParked
    | HostOf(owner: Name)
    | NoAddress
    | NoSuchVm
    | SnapshotGone
    | NotParked
    | StillRunning
    | Internal

  class Agent {
    const addresses: seq<Addr>   // the subnet's VM addresses, lowest first
    var shuttingDown: bool
    var mem: Mem                 // the VM table and what its tasks are at: dies with the agent
    var disk: Disk               // the database, the directories and the host: outlives it

    ghost predicate Valid() { forall i, j | 0 <= i < j < |addresses| :: addresses[i] < addresses[j] }

    ghost function Range(): set<Addr> { set a | a in addresses }

    ghost function View(): Node
      reads this
    {
      Node(Range(), disk, mem)
    }

    /** An agent that has found `d` and has not reconciled it yet. */
    constructor (range: seq<Addr>, d: Disk, firstLog: Log)
      requires forall i, j | 0 <= i < j < |range| :: range[i] < range[j]
      ensures Valid() && addresses == range && disk == d && !shuttingDown
      ensures mem == Mem(map[], map[], map[], map[], map[], map[], firstLog, 0, 0)
    {
      addresses, disk, shuttingDown := range, d, false;
      mem := Mem(map[], map[], map[], map[], map[], map[], firstLog, 0, 0);
    }

    // --------------------------------------------------- looking at the table --

    /** The lowest VM address no entry holds. */
    method FreeAddress() returns (a: Option<Addr>)
      requires Valid()
      ensures a.Some? ==> a.value in Range() && a.value !in Held(mem.vms)
      ensures a.Some? ==> forall b | b in Range() && b < a.value :: b in Held(mem.vms)
      ensures a.None? ==> Range() <= Held(mem.vms)
    {
      var held := Held(mem.vms);
      for i := 0 to |addresses|
        invariant forall k | 0 <= k < i :: addresses[k] in held
      {
        if addresses[i] !in held { return Some(addresses[i]); }
      }
      return None;
    }

    /** The first App, in name order, whose route has the hostname. */
    method FirstWithHost(name: string) returns (owner: Option<Name>)
      ensures owner.Some? ==> Serves(mem.vms, name, owner.value)
      ensures owner.None? ==> forall n | n in mem.vms :: !mem.vms[n].HasHost(name)
    {
      var ks := Ordered.Walk(mem.vms.Keys);
      for i := 0 to |ks|
        invariant forall k | 0 <= k < i :: !mem.vms[ks[k]].HasHost(name)
      {
        assert ks[i] in mem.vms.Keys;
        if mem.vms[ks[i]].HasHost(name) {
          forall n | n in mem.vms && n != ks[i] && mem.vms[n].HasHost(name) ensures Ordered.Less(ks[i], n) {
            var j :| 0 <= j < |ks| && ks[j] == n;
            assert j > i;
          }
          return Some(ks[i]);
        }
      }
      forall n | n in mem.vms ensures !mem.vms[n].HasHost(name) { assert n in ks; }
      return None;
    }

    /** What a request for the hostname needs next: an answer when a Machine-backed App has it or no App does, and
        else what its App's entry says. */
    method StepFor(host: string) returns (look: E.Look, app: Option<Name>)
      ensures app.Some? ==> host !in disk.apps.Values && Serves(mem.vms, host, app.value)
      ensures app.None? ==> look.Answer? && (host in disk.apps.Values || forall n | n in mem.vms :: !mem.vms[n].HasHost(host))
      ensures app.Some? ==>
        var e := mem.vms[app.value];
        && (look.HoldStart? <==> e.Starting?)
        && (look.HoldPark? <==> e.Running? && e.inst in mem.parks)
        && (look.Parked? <==> e.Parked())
        && look == E.LookAt(e, mem.parks.Keys)
    {
      if host in disk.apps.Values { return E.Answer, None; }
      app := FirstWithHost(host);
      if app.None? { return E.Answer, None; }
      match mem.vms[app.value] {
        case Running(_, _, _, inst) => look := if inst in mem.parks then E.HoldPark else E.Answer;
        case Starting(_, _, _) => look := E.HoldStart;
        case Ended(rec) => look := if rec.reason.Parked? then E.Parked else E.Answer;
      }
    }

    // ------------------------------------------------------------ run and wake --

    /** Why a start of `n` is refused, in the order the agent looks. */
    ghost predicate StartRefused(s: Node, down: bool, n: Name, route: Option<Route>, why: Refusal) {
      if down then why == ShuttingDown
      else if n in s.d.apps then why == AppNamed
      else if route.Some? && route.value.host in s.d.apps.Values then why == AppHas(route.value.host)
      else if n in s.m.vms && s.m.vms[n].Holds() then why == AlreadyExists
      else if n in s.m.vms && s.m.vms[n].Parked() then why == IsParked
      else if route.Some? && !HostFree(s, n, route.value.host) then
        why.HostOf? && why.owner != n && Serves(s.m.vms, route.value.host, why.owner)
      else why == NoAddress && s.range <= Held(s.m.vms)
    }

    /** The checks before an address is looked for, in the agent's order. */
    method CheckStart(n: Name, route: Option<Route>) returns (why: Option<Refusal>)
      ensures why.Some? ==> !shuttingDown ==> forall a :: !CanApi(View(), ReserveStart(n, route, a))
      ensures why.Some? ==> StartRefused(View(), shuttingDown, n, route, why.value)
      ensures why.None? ==> !shuttingDown && StartPasses(View(), n, route)
    {
      var vms, apps := mem.vms, disk.apps;
      if shuttingDown { return Some(ShuttingDown); }
      if n in apps { return Some(AppNamed); }
      if route.Some? && route.value.host in apps.Values { return Some(AppHas(route.value.host)); }
      if n in vms && vms[n].Holds() { return Some(AlreadyExists); }
      if n in vms && vms[n].Parked() { return Some(IsParked); }
      if route.Some? {
        var owner := FirstWithHost(route.value.host);
        if owner.Some? && owner.value != n {
          NotFirst(vms, route.value.host, owner.value, n);
          return Some(HostOf(owner.value));
        }
      }
      return None;
    }

    ghost predicate StartPasses(s: Node, n: Name, route: Option<Route>) {
      && n !in s.d.apps
      && (n in s.m.vms ==> s.m.vms[n].Ended? && !s.m.vms[n].Parked())
      && (route.Some? ==> HostFree(s, n, route.value.host))
    }

    lemma NoAddressNoStart(s: Node, n: Name, route: Option<Route>)
      requires StartPasses(s, n, route)
      ensures forall a :: CanApi(s, ReserveStart(n, route, a)) <==> a in s.range && a !in Held(s.m.vms)
      ensures StartRefused(s, false, n, route, NoAddress) <==> s.range <= Held(s.m.vms)
    {
    }

    /** Reserves a name and the lowest free address for a new VM exactly when some address would do; a start
        that is refused has used up a log number and nothing else. */
    method RunVm(n: Name, route: Option<Route>) returns (r: Result<Addr, Refusal>)
      requires Valid()
      modifies `mem
      ensures r.Ok? ==>
        && CanApi(old(View()), ReserveStart(n, route, r.value))
        && View() == DoReserveStart(old(View()), n, route, r.value)
        && forall b | b in Range() && b < r.value :: b in Held(old(mem).vms)
      ensures r.Ok? ==>
        mem.vms == old(mem).vms[n := Starting(r.value, old(mem).nextLog, route)] && mem.nextLog == old(mem).nextLog + 1
      ensures r.Err? ==> mem == old(mem).(nextLog := old(mem).nextLog + 1)
      ensures r.Err? ==> StartRefused(old(View()), shuttingDown, n, route, r.error)
      ensures r.Err? && !shuttingDown ==> forall a :: !CanApi(old(View()), ReserveStart(n, route, a))
    {
      var log := mem.nextLog;
      var why := CheckStart(n, route);
      var a := FreeAddress();
      if why.None? { NoAddressNoStart(View(), n, route); }
      mem := mem.(nextLog := log + 1);
      if why.Some? { return Err(why.value); }
      if a.None? { return Err(NoAddress); }
      Reserve(n, route, a.value, log);
      return Ok(a.value);
    }

    method Reserve(n: Name, route: Option<Route>, a: Addr, log: Log)
      requires n in mem.vms ==> mem.vms[n].Ended?
      modifies `mem
      ensures mem == old(mem).(
        vms := old(mem).vms[n := Starting(a, log, route)],
        jobs := old(mem).jobs[n := Job(Kind.Fresh(if n in old(mem).vms then Some(old(mem).vms[n].rec) else None), Entering)])
    {
      var replaced := if n in mem.vms then Some(mem.vms[n].rec) else None;
      mem := mem.(vms := mem.vms[n := Starting(a, log, route)],
                  jobs := mem.jobs[n := Job(Kind.Fresh(replaced), Entering)]);
    }

    lemma NotFirst(vms: map<Name, Entry>, host: string, first: Name, n: Name)
      requires Serves(vms, host, first) && first != n
      ensures !Serves(vms, host, n)
    {
      if Serves(vms, host, n) { Ordered.LessAsymmetric(n, first); }
    }

    ghost predicate WakeRefused(s: Node, down: bool, n: Name, why: Refusal) {
      if down then why == ShuttingDown
      else if n !in s.m.vms then why == NoSuchVm
      else if s.m.vms[n].Parked() then
        if n !in s.d.parked then why == SnapshotGone else why == NoAddress && s.range <= Held(s.m.vms)
      else if s.m.vms[n].Ended? then why == NotParked
      else why == StillRunning
    }

    /** Reserves a parked VM's wake, exactly when it is parked, its snapshot is there and an address is free. */
    method WakeVm(n: Name) returns (r: Result<Addr, Refusal>)
      requires Valid()
      modifies `mem
      ensures r.Ok? ==>
        && CanApi(old(View()), ReserveWake(n, r.value))
        && View() == DoReserveWake(old(View()), n, r.value)
        && forall b | b in Range() && b < r.value :: b in Held(old(mem).vms)
      ensures r.Ok? ==>
        && old(mem).vms[n].Parked()
        && mem.vms == old(mem).vms[n := Starting(r.value, old(mem).vms[n].LogOf(), old(mem).vms[n].RouteOf())]
      ensures r.Err? ==> View() == old(View()) && WakeRefused(old(View()), shuttingDown, n, r.error)
      ensures r.Err? && !shuttingDown ==> forall a :: !CanApi(old(View()), ReserveWake(n, a))
    {
      var vms := mem.vms;
      if shuttingDown { return Err(ShuttingDown); }
      if n !in vms { return Err(NoSuchVm); }
      if vms[n].Parked() && n !in disk.parked { return Err(SnapshotGone); }
      if !vms[n].Parked() { return Err(if vms[n].Ended? then NotParked else StillRunning); }
      var a := FreeAddress();
      if a.None? { return Err(NoAddress); }
      var rec := vms[n].rec;
      mem := mem.(vms := vms[n := Starting(a.value, rec.log, rec.route)],
                  jobs := mem.jobs[n := Job(FromSnapshot(rec), Entering)]);
      return Ok(a.value);
    }

    // --------------------------------------------- what ends a start, and a VM --

    /** Undoes a failed start's reservation: the Ended VM it set aside is back, and its own log goes. */
    method ForgetStart(n: Name)
      requires CanTask(View(), Forget(n))
      modifies `mem, `disk
      ensures View() == DoTask(DoForget(old(View()), n), DropLog(old(mem).nextTail))
      ensures var back, vms := old(mem).jobs[n].kind.PutBack(), old(mem).vms;
              && mem.vms == (if back.Some? then vms[n := Ended(back.value)] else vms - {n})
              && disk == old(disk).(logs := old(disk).logs - {vms[n].LogOf()})
    {
      var log, replaced := mem.vms[n].log, mem.jobs[n].kind.replaced;
      var vms := mem.vms - {n};
      if replaced.Some? { vms := vms[n := Ended(replaced.value)]; }
      mem := mem.(vms := vms, jobs := mem.jobs - {n},
                  tails := mem.tails[mem.nextTail := None], nextTail := mem.nextTail + 1);
      disk := disk.(logs := disk.logs - {log});
      ghost var s := DoForget(old(View()), n);
      assert mem.vms == s.m.vms && mem.tails == s.m.tails[old(mem).nextTail := None];
    }

    /** Turns a running VM's entry and record into an Ended one's; `ok` when the database took it. */
    method RecordEnd(n: Name, ok: bool)
      requires CanSup(View(), SupStep.RecordEnd(n, ok))
      modifies `mem, `disk
      ensures View() == DoRecordEnd(old(View()), n, ok)
      ensures mem.vms == old(mem).vms[n := Ended(Record(old(mem).sups[n].reason, old(mem).vms[n].LogOf(), old(mem).vms[n].RouteOf()))]
      ensures n !in mem.sups
    {
      var e, reason := mem.vms[n], mem.sups[n].reason;
      var vms := mem.vms - {n};
      if ok {
        if n in disk.rows { disk := disk.(rows := disk.rows[n := disk.rows[n].MarkedEnded(reason)]); }
        disk := disk.(stale := disk.stale - {n});
      } else {
        disk := disk.(stale := disk.stale + {n});
      }
      mem := mem.(vms := vms[n := Ended(Record(reason, e.log, e.route))], sups := mem.sups - {n});
      assert mem.vms == DoRecordEnd(old(View()), n, ok).m.vms;
    }

    // -------------------------------------------------------------- rm and Apps --

    /** Removes an App or an Ended VM.  `appGone` and `rowGone` say whether the database deletes its record, and
        `left` what stays of a snapshot whose removal fails. */
    method Remove(n: Name, appGone: bool, left: Option<Dir>, rowGone: bool) returns (r: Result<(), Refusal>)
      requires Leaves(disk.DirAt(n), left)
      modifies `mem, `disk
      ensures r.Ok? <==>
        if n in old(disk).apps then appGone
        else CanApi(old(View()), ApiStep.Remove(n)) && rowGone && (old(mem).vms[n].Parked() ==> left.None?)
      ensures r.Ok? ==>
        View() == if n in old(disk).apps then DoApi(old(View()), RemoveApp(n)) else DoRemove(old(View()), n)
      ensures r.Ok? && n in old(disk).apps ==> disk == old(disk).(apps := old(disk).apps - {n}) && mem == old(mem)
      ensures r.Ok? && n !in old(disk).apps ==>
        && n !in disk.apps && n !in mem.vms && n !in disk.rows
        && old(mem).vms[n].LogOf() !in disk.logs && (old(mem).vms[n].Parked() ==> n !in disk.parked)
        && SameButFor(old(View()), View(), n)
      ensures r.Err? && r.error == Internal && n !in old(disk).apps ==>
        CanApi(old(View()), RemoveFails(n, left)) && View() == DoApi(old(View()), RemoveFails(n, left))
      ensures r.Err? && (r.error != Internal || n in old(disk).apps) ==> View() == old(View())
      ensures r.Err? ==>
        && (r.error == NoSuchVm <==> n !in old(disk).apps && n !in old(mem).vms)
        && (r.error == StillRunning <==> n !in old(disk).apps && n in old(mem).vms && old(mem).vms[n].Holds())
        && r.error in {NoSuchVm, StillRunning, Internal}
    {
      if n in disk.apps {
        if !appGone { return Err(Internal); }
        disk := disk.(apps := disk.apps - {n});
        return Ok(());
      }
      if n !in mem.vms { return Err(NoSuchVm); }
      if !mem.vms[n].Ended? { return Err(StillRunning); }
      r := RemoveEnded(n, left, rowGone);
    }

    /** Every other VM, record, snapshot, App and log is as it was. */
    ghost predicate SameButFor(s: Node, s': Node, n: Name)
      requires n in s.m.vms
    {
      && s'.d.apps == s.d.apps
      && s'.m.vms - {n} == s.m.vms - {n} && s'.d.rows - {n} == s.d.rows - {n} && s'.d.parked - {n} == s.d.parked - {n}
      && (forall l | l != s.m.vms[n].LogOf() :: l in s'.d.logs <==> l in s.d.logs)
    }

    method RemoveEnded(n: Name, left: Option<Dir>, rowGone: bool) returns (r: Result<(), Refusal>)
      requires n in mem.vms && mem.vms[n].Ended? && Leaves(disk.DirAt(n), left)
      modifies `mem, `disk
      ensures r.Ok? <==> rowGone && (old(mem).vms[n].Parked() ==> left.None?)
      ensures r.Ok? ==> View() == DoRemove(old(View()), n)
      ensures r.Ok? ==>
        && n !in mem.vms && n !in disk.rows
        && old(mem).vms[n].LogOf() !in disk.logs && (old(mem).vms[n].Parked() ==> n !in disk.parked)
        && SameButFor(old(View()), View(), n)
      ensures r.Err? ==> r.error == Internal && View() == DoApi(old(View()), RemoveFails(n, left))
    {
      var e := mem.vms[n];
      if e.Parked() {
        disk := disk.(damaged := disk.damaged + {n});
        if left.Some? {
          disk := disk.(parked := disk.parked[n := left.value]);
          return Err(Internal);
        }
        disk := disk.(parked := disk.parked - {n});
      }
      if !rowGone { return Err(Internal); }
      if e.Parked() { disk := disk.(damaged := disk.damaged - {n}); }
      disk := disk.(rows := disk.rows - {n}, stale := disk.stale - {n}, logs := disk.logs - {e.rec.log});
      mem := mem.(vms := mem.vms - {n});
      assert disk.damaged == DoRemove(old(View()), n).d.damaged;
      return Ok(());
    }

    /** Makes a Machine-backed App; `added` when its Machine is there, reconnects, and the record is kept. */
    method RunOnMachine(n: Name, name: string, added: bool) returns (r: Result<(), Refusal>)
      modifies `disk
      ensures r.Ok? <==> added && CanApi(old(View()), AddApp(n, name))
      ensures View() == if r.Ok? then DoApi(old(View()), AddApp(n, name)) else old(View())
      ensures r.Ok? ==> disk == old(disk).(apps := old(disk).apps[n := name]) && n !in old(disk).apps
      ensures r.Err? ==>
        if n in mem.vms then r.error == AlreadyExists
        else if exists o :: o in mem.vms && mem.vms[o].HasHost(name) then
          r.error.HostOf? && Serves(mem.vms, name, r.error.owner)
        else if n in disk.apps then r.error == AppNamed
        else if name in disk.apps.Values then r.error == AppHas(name)
        else r.error == Internal
    {
      if n in mem.vms { return Err(AlreadyExists); }
      var owner := FirstWithHost(name);
      if owner.Some? { return Err(HostOf(owner.value)); }
      if n in disk.apps { return Err(AppNamed); }
      if name in disk.apps.Values { return Err(AppHas(name)); }
      if !added { return Err(Internal); }
      disk := disk.(apps := disk.apps[n := name]);
      return Ok(());
    }

    // ------------------------------------------------------------- idle parker --

    predicate IdleParks(e: Entry, idle: set<Inst>) {
      e.Running? && e.route.Some? && e.route.value.idleParkSecs.Some? && e.inst in idle
    }

    /** One look of the idle parker: claims each App that idles and is not being parked, `idle` being the VMs
        whose traffic has rested long enough. */
    method ClaimIdle(idle: set<Inst>) returns (claimed: seq<Name>)
      modifies `mem
      ensures mem == old(mem).(parks := mem.parks)
      ensures forall n | n in claimed :: n in mem.vms && IdleParks(mem.vms[n], idle) && mem.vms[n].inst !in old(mem).parks
      ensures forall n | n in mem.vms && IdleParks(mem.vms[n], idle) :: mem.vms[n].inst in mem.parks
      ensures forall i: Inst | i in old(mem).parks :: i in mem.parks && mem.parks[i] == old(mem).parks[i]
      ensures forall i: Inst | i in mem.parks && i !in old(mem).parks :: ClaimedBy(claimed, mem.parks[i], i)
    {
      claimed := [];
      var vms := mem.vms;
      var parks: map<Inst, Park> := mem.parks;
      var ks := Ordered.Walk(vms.Keys);
      for k := 0 to |ks|
        invariant mem == old(mem)
        invariant forall n | n in claimed :: n in vms && IdleParks(vms[n], idle) && vms[n].inst !in old(mem).parks
        invariant forall j | 0 <= j < k && IdleParks(vms[ks[j]], idle) :: vms[ks[j]].inst in parks
        invariant forall i: Inst | i in old(mem).parks :: i in parks && parks[i] == old(mem).parks[i]
        invariant forall i: Inst | i in parks && i !in old(mem).parks :: ClaimedBy(claimed, parks[i], i)
      {
        assert ks[k] in vms.Keys;
        var e := vms[ks[k]];
        if IdleParks(e, idle) && e.inst !in parks {
          parks := parks[e.inst := Claimed(ks[k])];
          claimed := claimed + [ks[k]];
        }
      }
      forall n | n in vms && IdleParks(vms[n], idle) ensures vms[n].inst in parks { assert n in ks; }
      mem := mem.(parks := parks);
    }

    ghost predicate ClaimedBy(claimed: seq<Name>, park: Park, i: Inst)
      reads this
    {
      park.Claimed? && park.n in claimed && park.n in mem.vms && mem.vms[park.n].Running? && mem.vms[park.n].inst == i
    }

    // --------------------------------------------------------------- reconcile --

    /** The console logs that stay: those some record names, and those that cannot be removed. */
    method RecordedLogs(d: Disk, stuck: Stuck) returns (logs: set<Log>)
      ensures logs == ReconciledLogs(d, stuck)
    {
      var recorded := set n | n in d.rows :: d.rows[n].LogOf();
      logs := d.logs;
      var left := d.logs;
      while left != {}
        invariant left <= d.logs && logs == set l | l in d.logs && (l in left || l in recorded || l in stuck.logs)
        decreases left
      {
        var l :| l in left;
        left := left - {l};
        if l !in recorded && l !in stuck.logs { logs := logs - {l}; }
      }
      forall l ensures l in recorded <==> RecordedLog(d, l) { }
    }

    /** What is kept of a directory in the parked directory, if anything. */
    function KeptDir(d: Disk, n: Name, stuck: Stuck): Option<Dir>
      requires n in d.parked
    {
      if ParkedRow(d, n) then Some(d.parked[n])
      else if n in stuck.files then Some(LeftOf(d.parked[n], stuck.files[n]))
      else None
    }

    /** The snapshots that stay: those some parked VM's record owns, and what cannot be removed of others. */
    method OwnedSnapshots(d: Disk, stuck: Stuck) returns (parked: map<Name, Dir>)
      ensures parked == ReconciledDirs(d, stuck)
    {
      parked := d.parked;
      var left := d.parked.Keys;
      while left != {}
        invariant left <= d.parked.Keys
        invariant forall n | n in d.parked ::
          if n in left then n in parked && parked[n] == d.parked[n]
          else if n in parked then KeptDir(d, n, stuck) == Some(parked[n]) else KeptDir(d, n, stuck).None?
        invariant parked.Keys <= d.parked.Keys
        decreases left
      {
        var n :| n in left;
        left := left - {n};
        if !ParkedRow(d, n) {
          parked := if n in stuck.files then parked[n := LeftOf(d.parked[n], stuck.files[n])] else parked - {n};
        }
      }
      assert parked == ReconciledDirs(d, stuck);
    }

    /** Each VM is run by one supervisor, and no two share a traffic record. */
    ghost predicate Supervised(m: Mem) {
      && (forall n | n in m.vms :: n in m.sups <==> m.vms[n].Running?)
      && (forall n | n in m.sups :: n in m.vms && m.sups[n] == Up([]))
      && (forall n | n in m.vms && m.vms[n].Running? :: m.vms[n].inst < m.nextInst)
      && (forall n1, n2 | n1 in m.vms && n2 in m.vms && m.vms[n1].Running? && m.vms[n2].Running? &&
            m.vms[n1].inst == m.vms[n2].inst :: n1 == n2)
    }

    function RowAfter(d: Disk, n: Name): Row
      requires n in d.rows
    {
      if d.rows[n].RowRunning? && d.rows[n].proc !in d.alive then d.rows[n].MarkedEnded(AgentDown) else d.rows[n]
    }

    function WithEnded(m: Mem, n: Name, rec: Record): Mem { m.(vms := m.vms[n := Ended(rec)]) }

    function WithRunning(m: Mem, n: Name, a: Addr, log: Log, route: Option<Route>): Mem {
      m.(vms := m.vms[n := Running(a, log, route, m.nextInst)], sups := m.sups[n := Up([])], nextInst := m.nextInst + 1)
    }

    /** `m'` is `m` with an entry for `n`. */
    ghost predicate Adds(m: Mem, n: Name, m': Mem) {
      && Supervised(m') && m' == m.(vms := m'.vms, sups := m'.sups, nextInst := m'.nextInst)
      && m'.vms.Keys == m.vms.Keys + {n} && m'.vms == m.vms[n := m'.vms[n]]
    }

    lemma EndedAdded(m: Mem, n: Name, rec: Record)
      requires Supervised(m) && n !in m.vms
      ensures Adds(m, n, WithEnded(m, n, rec))
    {
    }

    lemma RunningAdded(m: Mem, n: Name, a: Addr, log: Log, route: Option<Route>)
      requires Supervised(m) && n !in m.vms
      ensures Adds(m, n, WithRunning(m, n, a, log, route))
    {
    }

    /** One record: a live VM is taken back, a dead one becomes an Ended VM, an Ended one stays. */
    method RestoreRecord(d: Disk, m: Mem, n: Name) returns (m': Mem, row: Row)
      requires n in d.rows && n !in m.vms && Supervised(m)
      ensures Adds(m, n, m') && Restored(d, n, m'.vms[n]) && row == RowAfter(d, n)
    {
      row := d.rows[n];
      if row.RowEnded? {
        EndedAdded(m, n, row.rec);
        return WithEnded(m, n, row.rec), row;
      }
      if row.proc in d.alive {
        RunningAdded(m, n, row.addr, row.log, row.route);
        return WithRunning(m, n, row.addr, row.log, row.route), row;
      }
      EndedAdded(m, n, Record(AgentDown, row.log, row.route));
      return WithEnded(m, n, Record(AgentDown, row.log, row.route)), row.MarkedEnded(AgentDown);
    }

    /** Every record, in name order. */
    method RestoreRecords(d: Disk, m: Mem) returns (m': Mem, rows: map<Name, Row>)
      requires m.vms == map[] && m.sups == map[]
      ensures Supervised(m') && m' == m.(vms := m'.vms, sups := m'.sups, nextInst := m'.nextInst)
      ensures m'.vms.Keys == d.rows.Keys && forall n | n in d.rows :: Restored(d, n, m'.vms[n])
      ensures rows == map n | n in d.rows :: RowAfter(d, n)
    {
      m', rows := m, d.rows;
      var left := d.rows.Keys;
      while left != {}
        invariant left <= d.rows.Keys && m'.vms.Keys == d.rows.Keys - left && rows.Keys == d.rows.Keys
        invariant Supervised(m') && m' == m.(vms := m'.vms, sups := m'.sups, nextInst := m'.nextInst)
        invariant forall n | n in m'.vms :: Restored(d, n, m'.vms[n])
        invariant forall n | n in d.rows :: rows[n] == if n in left then d.rows[n] else RowAfter(d, n)
        decreases left
      {
        var n := Ordered.Least(left);
        left := left - {n};
        var row;
        m', row := RestoreRecord(d, m', n);
        rows := rows[n := row];
      }
    }

    /** The host state that stays: all of it at an address in `held`, and elsewhere what a clean-up cannot remove. */
    function SweptHost(host: map<Addr, Host>, held: set<Addr>, stuck: Stuck): map<Addr, Host> {
      map a | a in host && (a in held || stuck.LeftAt(host[a], a).objs != {}) ::
        if a in held then host[a] else stuck.LeftAt(host[a], a)
    }

    /** Cleaning up at `a` as well. */
    lemma SweptOne(host: map<Addr, Host>, a: Addr, held: set<Addr>, owners: set<Addr>, stuck: Stuck)
      requires a in host && a in owners && a !in held
      ensures var left := stuck.LeftAt(host[a], a);
              (if left.objs == {} then SweptHost(host, held + owners, stuck) - {a}
               else SweptHost(host, held + owners, stuck)[a := left]) == SweptHost(host, held + (owners - {a}), stuck)
    {
    }

    function VmmsAt(alive: map<Proc, Addr>, held: set<Addr>): map<Proc, Addr> {
      map p | p in alive && alive[p] in held :: alive[p]
    }

    lemma KilledOne(alive: map<Proc, Addr>, a: Addr, held: set<Addr>, owners: set<Addr>)
      requires a !in held
      ensures var now := VmmsAt(alive, held + owners);
              (map p | p in now && now[p] != a :: now[p]) == VmmsAt(alive, held + (owners - {a}))
    {
    }

    /** Cleans up at every address not in `held`: kills what runs there and removes all that it can. */
    method SweepHostState(d: Disk, held: set<Addr>, stuck: Stuck) returns (host: map<Addr, Host>, alive: map<Proc, Addr>)
      requires forall p | p in d.alive :: d.alive[p] in d.host
      ensures host == SweptHost(d.host, held, stuck)
      ensures alive == VmmsAt(d.alive, held)
    {
      host, alive := d.host, d.alive;
      var owners := d.host.Keys;
      while owners != {}
        invariant owners <= d.host.Keys
        invariant host == SweptHost(d.host, held + owners, stuck)
        invariant alive == VmmsAt(d.alive, held + owners)
        decreases owners
      {
        var a :| a in owners;
        if a !in held {
          SweptOne(d.host, a, held, owners, stuck);
          KilledOne(d.alive, a, held, owners);
          var left := stuck.LeftAt(d.host[a], a);
          host := if left.objs == {} then host - {a} else host[a := left];
          alive := map p | p in alive && alive[p] != a :: alive[p];
        } else {
          assert held + (owners - {a}) == held + owners;
        }
        owners := owners - {a};
      }
      assert held + owners == held;
    }

    lemma HeldIsLive(d: Disk, vms: map<Name, Entry>)
      requires vms.Keys == d.rows.Keys && forall n | n in d.rows :: Restored(d, n, vms[n])
      ensures Held(vms) == LiveAddrs(d)
    {
      forall n | n in d.rows ensures vms[n].Holds() <==> LiveRow(d, n) { assert Restored(d, n, vms[n]); }
      forall a ensures a in Held(vms) <==> a in LiveAddrs(d) {
        if a in Held(vms) {
          var n :| n in vms && vms[n].Holds() && vms[n].addr == a;
          assert Restored(d, n, vms[n]);
        }
        if a in LiveAddrs(d) {
          var n :| n in d.rows && LiveRow(d, n) && d.rows[n].addr == a;
          assert Restored(d, n, vms[n]);
        }
      }
    }

    /** The disk when all that no record owns, and that can be removed, is gone. */
    method Sweep(d: Disk, rows: map<Name, Row>, held: set<Addr>, stuck: Stuck) returns (d': Disk)
      requires forall p | p in d.alive :: d.alive[p] in d.host
      requires held == LiveAddrs(d) && rows == map n | n in d.rows :: RowAfter(d, n)
      ensures d' == ReconciledDisk(d, stuck)
    {
      var logs := RecordedLogs(d, stuck);
      var parked := OwnedSnapshots(d, stuck);
      var host, alive := SweepHostState(d, held, stuck);
      assert host == ReconciledHost(d, stuck) && rows == ReconciledRows(d) && alive == ReconciledVmms(d);
      d' := Disk(rows, d.apps, parked, logs, host, alive, d.nextProc, ReconciledLeaks(d, stuck), ReconciledDamage(d, stuck), {});
    }

    /** A starting agent makes of any disk the Node that the design describes. */
    method Reconcile(stuck: Stuck)
      requires mem.vms == map[] && mem.jobs == map[] && mem.sups == map[]
      requires mem.parks == map[] && mem.tails == map[] && mem.reqs == map[]
      requires forall l | l in disk.logs :: l < mem.nextLog
      requires forall p | p in disk.alive :: disk.alive[p] in disk.host
      modifies `mem, `disk
      ensures IsReconciled(Range(), old(disk), stuck, View())
    {
      var m, rows := RestoreRecords(disk, mem);
      HeldIsLive(disk, m.vms);
      disk := Sweep(disk, rows, Held(m.vms), stuck);
      mem := m;
    }
  }

  /** A new agent on a Node: whatever an earlier one left there, this one begins from it reconciled. */
  method Launch(range: seq<Addr>, d: Disk, stuck: Stuck) returns (agent: Agent)
    requires forall i, j | 0 <= i < j < |range| :: range[i] < range[j]
    requires forall p | p in d.alive :: d.alive[p] in d.host
    ensures fresh(agent) && agent.Valid() && agent.addresses == range
    ensures IsReconciled(agent.Range(), d, stuck, agent.View())
  {
    var firstLog := Logs.OnePast(d.logs);
    agent := new Agent(range, d, firstLog);
    agent.Reconcile(stuck);
  }
}
