/** A hostname belongs to at most one App on a Node: what keeps that, and exactly what does not. */
module Hostnames {
  import opened Common
  import opened Registry
  import opened RegistryInvariant
  import opened RegistryRuns
  import opened Recovery
  import opened NodeTheorems

  /** No name is ever both a VM's and a Machine-backed App's. */
  lemma NamesDisjoint(ss: seq<Node>, sts: seq<Step>, i: nat)
    requires IsRun(ss, sts) && i < |ss|
    ensures ss[i].m.vms.Keys !! ss[i].d.apps.Keys
  {
    EveryStateSound(ss, sts, i);
  }

  ghost predicate HostUnique(s: Node) {
    && (forall n1, n2, host | n1 in s.m.vms && n2 in s.m.vms && s.m.vms[n1].HasHost(host) && s.m.vms[n2].HasHost(host) ::
          n1 == n2)
    && (forall n, a | n in s.m.vms && a in s.d.apps :: !s.m.vms[n].HasHost(s.d.apps[a]))
    && (forall a1, a2 | a1 in s.d.apps && a2 in s.d.apps && s.d.apps[a1] == s.d.apps[a2] :: a1 == a2)
  }

  /** Every App keeps the hostname it had, or has none any more. */
  lemma RoutesKept(s: Node, s': Node)
    requires HostUnique(s) && s'.d.apps == s.d.apps
    requires forall n | n in s'.m.vms :: n in s.m.vms && s'.m.vms[n].RouteOf() == s.m.vms[n].RouteOf()
    ensures HostUnique(s')
  {
    forall n, host | n in s'.m.vms && s'.m.vms[n].HasHost(host) ensures n in s.m.vms && s.m.vms[n].HasHost(host) { }
  }

  lemma ReserveStartKeepsHosts(s: Node, n: Name, route: Option<Route>, a: Addr)
    requires HostUnique(s) && CanApi(s, ReserveStart(n, route, a))
    ensures HostUnique(DoApi(s, ReserveStart(n, route, a)))
  {
    var s' := DoApi(s, ReserveStart(n, route, a));
    if route.Some? {
      var host := route.value.host;
      forall n' | n' in s.m.vms && n' != n ensures !s.m.vms[n'].HasHost(host) {
        assert s.m.vms[n'].HasHost(host) ==> Serves(s.m.vms, host, n);
      }
      forall a' | a' in s.d.apps ensures s.d.apps[a'] != host { assert s.d.apps[a'] in s.d.apps.Values; }
    }
    forall n' | n' in s'.m.vms && n' != n ensures n' in s.m.vms && s'.m.vms[n'] == s.m.vms[n'] { }
  }

  lemma ApiKeepsHosts(s: Node, st: ApiStep)
    requires HostUnique(s) && CanApi(s, st)
    ensures HostUnique(DoApi(s, st))
  {
    match st
    case ReserveStart(n, route, a) => ReserveStartKeepsHosts(s, n, route, a);
    case AddApp(n, host) =>
      forall a | a in s.d.apps ensures s.d.apps[a] != host { assert s.d.apps[a] in s.d.apps.Values; }
      forall n' | n' in s.m.vms ensures !s.m.vms[n'].HasHost(host) { }
    case RemoveApp(n) =>
    case _ => RoutesKept(s, DoApi(s, st));
  }

  lemma TaskKeepsHosts(s: Node, st: TaskStep)
    requires HostUnique(s) && CanTask(s, st) && !st.Forget?
    requires st.PutBackParked? || st.EndForced? ==> Shaped(CellAt(s, st.n))
    ensures HostUnique(DoTask(s, st))
  {
    RoutesKept(s, DoTask(s, st));
  }

  lemma BuildKeepsHosts(s: Node, st: BuildStep)
    requires HostUnique(s) && CanBuild(s, st)
    ensures HostUnique(DoBuild(s, st))
  {
    RoutesKept(s, DoBuild(s, st));
  }

  lemma SupKeepsHosts(s: Node, st: SupStep)
    requires HostUnique(s) && CanSup(s, st)
    ensures HostUnique(DoSup(s, st))
  {
    RoutesKept(s, DoSup(s, st));
  }

  lemma EdgeKeepsHosts(s: Node, st: EdgeStep)
    requires HostUnique(s) && CanEdge(s, st)
    ensures HostUnique(DoEdge(s, st))
  {
    RoutesKept(s, DoEdge(s, st));
  }

  /** Every step but the put-back of a failed start, and but a restart, keeps each hostname with one App. */
  lemma HostsKept(s: Node, st: Step)
    requires Inv(s) && HostUnique(s) && Can(s, st)
    requires !(st.Task? && st.task.Forget?) && !st.Restart?
    ensures HostUnique(Do(s, st))
  {
    match st
    case Api(st) => ApiKeepsHosts(s, st);
    case Build(st) => BuildKeepsHosts(s, st);
    case Task(st) =>
      if st.PutBackParked? || st.EndForced? { assert Local(CellAt(s, st.n)); }
      TaskKeepsHosts(s, st);
    case Super(st) => SupKeepsHosts(s, st);
    case Parking(st) => RoutesKept(s, DoPark(s, st));
    case Edge(st) => EdgeKeepsHosts(s, st);
  }

  /** Another App has claimed `host`. */
  predicate HostTakenByOther(s: Node, name: Name, host: string) {
    (exists n :: n in s.m.vms && n != name && s.m.vms[n].HasHost(host)) || host in s.d.apps.Values
  }

  /** Putting back the Ended VM a failed start had set aside keeps hostnames unique exactly when
      nothing has claimed its hostname meanwhile. */
  lemma PutBackKeepsHosts(s: Node, n: Name)
    requires HostUnique(s) && CanTask(s, Forget(n))
    ensures HostUnique(DoTask(s, Forget(n))) <==>
      (match s.m.jobs[n].kind.replaced
       case Some(rec) => rec.route.Some? ==> !HostTakenByOther(s, n, rec.route.value.host)
       case None => true)
  {
    var s' := DoTask(s, Forget(n));
    forall n' | n' in s'.m.vms && n' != n ensures n' in s.m.vms && s'.m.vms[n'] == s.m.vms[n'] { }
    var back := s.m.jobs[n].kind.replaced;
    if back.Some? && back.value.route.Some? {
      var host := back.value.route.value.host;
      assert n in s'.m.vms && s'.m.vms[n].HasHost(host);
      if HostTakenByOther(s, n, host) {
        if n' :| n' in s.m.vms && n' != n && s.m.vms[n'].HasHost(host) {
          assert n' in s'.m.vms && s'.m.vms[n'].HasHost(host);
        } else {
          var a :| a in s.d.apps && s.d.apps[a] == host;
        }
      } else {
        forall a | a in s.d.apps ensures s.d.apps[a] != host { assert s.d.apps[a] in s.d.apps.Values; }
      }
    }
  }

  /** The records' own hostnames are unique. */
  ghost predicate RecordedHostUnique(d: Disk) {
    && (forall n1, n2 | n1 in d.rows && n2 in d.rows && d.rows[n1].RouteOf().Some? && d.rows[n2].RouteOf().Some? &&
          d.rows[n1].RouteOf().value.host == d.rows[n2].RouteOf().value.host :: n1 == n2)
    && (forall n, a | n in d.rows && a in d.apps && d.rows[n].RouteOf().Some? ::
          d.rows[n].RouteOf().value.host != d.apps[a])
    && (forall a1, a2 | a1 in d.apps && a2 in d.apps && d.apps[a1] == d.apps[a2] :: a1 == a2)
  }

  lemma RestoredRoutes(range: set<Addr>, d: Disk, stuck: Stuck, to: Node, n: Name)
    requires IsReconciled(range, d, stuck, to) && n in d.rows
    ensures n in to.m.vms && to.m.vms[n].RouteOf() == d.rows[n].RouteOf()
  {
    assert Restored(d, n, to.m.vms[n]);
  }

  lemma RecordsUnique(d: Disk, to: Node)
    requires to.m.vms.Keys == d.rows.Keys && to.d.apps == d.apps
    requires forall n | n in d.rows :: to.m.vms[n].RouteOf() == d.rows[n].RouteOf()
    requires HostUnique(to)
    ensures RecordedHostUnique(d)
  {
    forall n1, n2 | n1 in d.rows && n2 in d.rows && d.rows[n1].RouteOf().Some? && d.rows[n2].RouteOf().Some? &&
      d.rows[n1].RouteOf().value.host == d.rows[n2].RouteOf().value.host ensures n1 == n2
    {
      var host := d.rows[n1].RouteOf().value.host;
      assert to.m.vms[n1].HasHost(host) && to.m.vms[n2].HasHost(host);
    }
    forall n, a | n in d.rows && a in d.apps && d.rows[n].RouteOf().Some?
      ensures d.rows[n].RouteOf().value.host != d.apps[a]
    {
      assert !to.m.vms[n].HasHost(to.d.apps[a]);
    }
  }

  lemma EntriesUnique(d: Disk, to: Node)
    requires to.m.vms.Keys == d.rows.Keys && to.d.apps == d.apps
    requires forall n | n in d.rows :: to.m.vms[n].RouteOf() == d.rows[n].RouteOf()
    requires RecordedHostUnique(d)
    ensures HostUnique(to)
  {
    forall n | n in to.m.vms ensures to.m.vms[n].RouteOf() == d.rows[n].RouteOf() { }
  }

  lemma ReconcileKeepsHosts(range: set<Addr>, d: Disk, stuck: Stuck, to: Node)
    requires IsReconciled(range, d, stuck, to)
    ensures HostUnique(to) <==> RecordedHostUnique(d)
  {
    forall n | n in d.rows ensures to.m.vms[n].RouteOf() == d.rows[n].RouteOf() {
      RestoredRoutes(range, d, stuck, to, n);
    }
    if HostUnique(to) { RecordsUnique(d, to); }
    if RecordedHostUnique(d) { EntriesUnique(d, to); }
  }

  /** The record a start, not on record itself yet, would put back. */
  function SetAside(m: Mem, n: Name): Option<Record> {
    if n in m.jobs && m.jobs[n].kind.Fresh? && !m.jobs[n].pc.Recorded? && !m.jobs[n].pc.Tidied?
    then m.jobs[n].kind.replaced else None
  }

  lemma RowRoute(s: Node, n: Name)
    requires Local(CellAt(s, n)) && n in s.d.rows && n in s.m.vms
    ensures s.d.rows[n].RouteOf() ==
      (if SetAside(s.m, n).Some? then SetAside(s.m, n).value.route else s.m.vms[n].RouteOf())
  {
  }

  lemma SetAsideOnRecord(s: Node, n: Name)
    requires Local(CellAt(s, n)) && SetAside(s.m, n).Some?
    ensures n in s.d.rows && s.d.rows[n].RouteOf() == SetAside(s.m, n).value.route
  {
  }

  /** The record of another VM, or an App of a Machine, has `host`. */
  predicate RecordedByOther(d: Disk, name: Name, host: string) {
    || (exists n :: n in d.rows && n != name && d.rows[n].RouteOf().Some? && d.rows[n].RouteOf().value.host == host)
    || host in d.apps.Values
  }

  /** No start under way has set aside a hostname that another has on record by now. */
  ghost predicate NoneSharesSetAside(s: Node) {
    forall n | SetAside(s.m, n).Some? && SetAside(s.m, n).value.route.Some? ::
      !RecordedByOther(s.d, n, SetAside(s.m, n).value.route.value.host)
  }

  lemma UniqueUnlessSetAside(s: Node)
    requires Inv(s) && HostUnique(s) && NoneSharesSetAside(s)
    ensures RecordedHostUnique(s.d)
  {
    forall n1, n2 | n1 in s.d.rows && n2 in s.d.rows && s.d.rows[n1].RouteOf().Some? && s.d.rows[n2].RouteOf().Some? &&
      s.d.rows[n1].RouteOf().value.host == s.d.rows[n2].RouteOf().value.host
      ensures n1 == n2
    {
      if n1 != n2 { RowsApart(s, n1, n2); }
    }
    forall n, a | n in s.d.rows && a in s.d.apps && s.d.rows[n].RouteOf().Some?
      ensures s.d.rows[n].RouteOf().value.host != s.d.apps[a]
    {
      assert s.d.apps[a] in s.d.apps.Values;
      assert Local(CellAt(s, n));
      RowRoute(s, n);
      assert !s.m.vms[n].HasHost(s.d.apps[a]);
    }
  }

  lemma RowsApart(s: Node, n1: Name, n2: Name)
    requires Inv(s) && HostUnique(s) && NoneSharesSetAside(s) && n1 != n2
    requires n1 in s.d.rows && n2 in s.d.rows && s.d.rows[n1].RouteOf().Some? && s.d.rows[n2].RouteOf().Some?
    ensures s.d.rows[n1].RouteOf().value.host != s.d.rows[n2].RouteOf().value.host
  {
    assert Local(CellAt(s, n1)) && Local(CellAt(s, n2));
    RowRoute(s, n1);
    RowRoute(s, n2);
    var host := s.d.rows[n1].RouteOf().value.host;
    if s.d.rows[n2].RouteOf().value.host == host {
      assert RecordedByOther(s.d, n1, host) && RecordedByOther(s.d, n2, host);
      assert s.m.vms[n1].HasHost(host) && s.m.vms[n2].HasHost(host);
    }
  }

  lemma SetAsideNotShared(s: Node, n: Name)
    requires Local(CellAt(s, n)) && SetAside(s.m, n).Some? && SetAside(s.m, n).value.route.Some?
    requires RecordedHostUnique(s.d)
    ensures !RecordedByOther(s.d, n, SetAside(s.m, n).value.route.value.host)
  {
    SetAsideOnRecord(s, n);
  }

  lemma RepairsKeepHosts(d: Disk, rs: seq<Repair>)
    requires CanRepairAll(d, rs)
    ensures RecordedHostUnique(RepairedAll(d, rs)) <==> RecordedHostUnique(d)
  {
    var d' := RepairedAll(d, rs);
    RepairsKeepRecords(d, rs, "");
    forall n | n in d.rows ensures d'.rows[n].RouteOf() == d.rows[n].RouteOf() { RepairsKeepRecords(d, rs, n); }
    SameRoutes(d, d');
    SameRoutes(d', d);
  }

  lemma SameRoutes(d: Disk, d': Disk)
    requires d'.apps == d.apps
    requires d'.rows.Keys == d.rows.Keys
    requires forall n | n in d.rows :: d'.rows[n].RouteOf() == d.rows[n].RouteOf()
    ensures RecordedHostUnique(d) ==> RecordedHostUnique(d')
  {
  }

  /** A restart puts back what is on record.  It leaves each hostname with one App if and only if no start that
      had yet to go on record had set aside a hostname that another has on record by then. */
  lemma RestartKeepsHosts(s: Node, st: Step)
    requires Inv(s) && HostUnique(s) && Can(s, st) && st.Restart?
    ensures HostUnique(Do(s, st)) <==> NoneSharesSetAside(s)
  {
    var d := AfterCrash(s);
    ReconcileKeepsHosts(s.range, RepairedAll(d, st.repairs), st.stuck, st.to);
    RepairsKeepHosts(d, st.repairs);
    SameRoutes(s.d, d);
    SameRoutes(d, s.d);
    if RecordedHostUnique(s.d) {
      forall n | SetAside(s.m, n).Some? && SetAside(s.m, n).value.route.Some?
        ensures !RecordedByOther(s.d, n, SetAside(s.m, n).value.route.value.host)
      {
        assert Local(CellAt(s, n));
        SetAsideNotShared(s, n);
      }
    }
    if NoneSharesSetAside(s) { UniqueUnlessSetAside(s); }
  }
}
