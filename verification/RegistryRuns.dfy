/** Every run of the registry keeps the invariant. */
module RegistryRuns {
  import opened Common
  import opened Registry
  import opened RegistryInvariant

  // ------------------------------------------------------------ addresses --

  lemma ApiKeepsAddresses(s: Node, st: ApiStep)
    requires Addresses(s) && CanApi(s, st)
    ensures Addresses(DoApi(s, st))
  {
  }

  lemma TaskKeepsAddresses(s: Node, st: TaskStep)
    requires Addresses(s) && CanTask(s, st)
    ensures Addresses(DoTask(s, st))
  {
  }

  lemma SupKeepsAddresses(s: Node, st: SupStep)
    requires Addresses(s) && CanSup(s, st)
    ensures Addresses(DoSup(s, st))
  {
  }

  // ----------------------------------------------------------- host state --

  lemma ApiKeepsHost(s: Node, st: ApiStep)
    requires Addresses(s) && HostOwned(s.range, s.d, Held(s.m.vms)) && CanApi(s, st)
    ensures HostOwned(s.range, DoApi(s, st).d, Held(DoApi(s, st).m.vms))
  {
    match st
    case ReserveStart(n, route, a) => HeldAfter(s.m.vms, n, Starting(a, s.m.nextLog, route));
    case ReserveWake(n, a) => HeldAfter(s.m.vms, n, Starting(a, s.m.vms[n].rec.log, s.m.vms[n].rec.route));
    case Remove(n) => HeldWithout(s.m.vms, n);
    case _ => assert DoApi(s, st).m.vms == s.m.vms;
  }

  lemma HoldsIt(vms: map<Name, Entry>, n: Name)
    requires n in vms && vms[n].Holds()
    ensures vms[n].addr in Held(vms)
  {
  }

  /** Host state is all that changes, and at an address that is held, with the same VMM. */
  lemma HostChanged(range: set<Addr>, d: Disk, held: set<Addr>, a: Addr, h: Host, d': Disk)
    requires HostOwned(range, d, held) && a in held && a in range && h.vmm == d.HostAt(a).vmm
    requires d'.host == d.host[a := h]
    requires d'.alive == d.alive && d'.leaked == d.leaked && d'.nextProc == d.nextProc && d'.rows == d.rows
    ensures HostOwned(range, d', held)
  {
  }

  lemma HostSame(range: set<Addr>, d: Disk, held: set<Addr>, d': Disk)
    requires HostOwned(range, d, held) && d'.host == d.host && d'.alive == d.alive && d'.leaked == d.leaked
    requires d'.nextProc == d.nextProc && d'.rows == d.rows
    ensures HostOwned(range, d', held)
  {
  }

  lemma SpawnKeepsHost(s: Node, n: Name)
    requires Addresses(s) && HostOwned(s.range, s.d, Held(s.m.vms)) && CanBuild(s, SpawnVmm(n))
    ensures HostOwned(s.range, DoBuild(s, SpawnVmm(n)).d, Held(s.m.vms))
  {
    HoldsIt(s.m.vms, n);
  }

  lemma SweepKeepsProc(d: Disk, held: set<Addr>, a: Addr, p: Proc)
    requires p in d.alive && ProcOwned(d, held, p) && !d.Lives(a)
    ensures ProcOwned(SweepGone(d, a), held, p)
  {
    assert d.alive[p] != a;
  }

  lemma SweptHost(d: Disk, a: Addr, a': Addr)
    requires a' in SweepGone(d, a).host
    ensures a' in d.host
    ensures a' != a ==> SweepGone(d, a).host[a'] == d.host[a']
    ensures a' == a ==> SweepGone(d, a).host[a'].vmm.None? && a in SweepGone(d, a).leaked
  {
  }

  /** A teardown that is done, at an address that is still held. */
  lemma SweepKeepsHost(range: set<Addr>, d: Disk, held: set<Addr>, a: Addr)
    requires HostOwned(range, d, held) && a in held && !d.Lives(a)
    ensures HostOwned(range, SweepGone(d, a), held)
  {
    var d' := SweepGone(d, a);
    forall p | p in d'.alive ensures ProcOwned(d', held, p) { SweepKeepsProc(d, held, a, p); }
    forall a' | a' in d'.host ensures a' in range && (a' in held || (a' in d'.leaked && d'.host[a'].vmm.None?)) {
      SweptHost(d, a, a');
    }
    forall a' | a' in d'.host && d'.host[a'].vmm.Some? ensures VmmAt(d', a', d'.host[a'].vmm.value) {
      SweptHost(d, a, a');
      assert VmmAt(d, a', d.host[a'].vmm.value);
    }
  }

  lemma BuildKeepsHost(s: Node, st: BuildStep)
    requires Addresses(s) && HostOwned(s.range, s.d, Held(s.m.vms)) && CanBuild(s, st)
    ensures HostOwned(s.range, DoBuild(s, st).d, Held(s.m.vms))
  {
    HoldsIt(s.m.vms, st.n);
    var a, d' := s.m.vms[st.n].addr, DoBuild(s, st).d;
    match st
    case SpawnVmm(n) => SpawnKeepsHost(s, n);
    case UnwindDone(n) => SweepKeepsHost(s.range, s.d, Held(s.m.vms), a);
    case MakeLog(_) => HostSame(s.range, s.d, Held(s.m.vms), d');
    case BuildErr(_) => HostSame(s.range, s.d, Held(s.m.vms), d');
    case TakeCwd(_, _, _) => HostSame(s.range, s.d, Held(s.m.vms), d');
    case PutBackDone(_) => HostSame(s.range, s.d, Held(s.m.vms), d');
    case EnterErr(_, made) =>
      if made { HostChanged(s.range, s.d, Held(s.m.vms), a, d'.host[a], d'); } else { HostSame(s.range, s.d, Held(s.m.vms), d'); }
    case _ => HostChanged(s.range, s.d, Held(s.m.vms), a, d'.host[a], d');
  }

  /** A name that gives up its address once everything under it is unwound. */
  lemma GivesUp(s: Node, n: Name, vms': map<Name, Entry>)
    requires Addresses(s) && HostOwned(s.range, s.d, Held(s.m.vms))
    requires n in s.m.vms && s.m.vms[n].Holds() && Unwound(PlaceAt(s.d, s.m.vms[n].addr))
    requires Held(vms') == Held(s.m.vms) - {s.m.vms[n].addr}
    ensures HostOwned(s.range, s.d, Held(vms'))
  {
  }

  lemma SettleKeepsHost(s: Node, n: Name, e: Option<Entry>)
    requires Addresses(s) && HostOwned(s.range, s.d, Held(s.m.vms))
    requires n in s.m.vms && s.m.vms[n].Holds() && Unwound(PlaceAt(s.d, s.m.vms[n].addr))
    requires e.Some? ==> e.value.Ended?
    ensures HostOwned(s.range, s.d, Held(if e.Some? then s.m.vms[n := e.value] else s.m.vms - {n}))
  {
    if e.Some? { HeldAfter(s.m.vms, n, e.value); } else { HeldWithout(s.m.vms, n); }
    GivesUp(s, n, if e.Some? then s.m.vms[n := e.value] else s.m.vms - {n});
  }

  lemma SuperviseKeepsHost(s: Node, n: Name)
    requires Exclusive(s.m.vms) && CanTask(s, Supervise(n))
    ensures Held(DoTask(s, Supervise(n)).m.vms) == Held(s.m.vms)
  {
    var e := s.m.vms[n];
    HeldAfter(s.m.vms, n, Running(e.addr, e.log, e.route, s.m.nextInst));
    HoldsIt(s.m.vms, n);
  }

  lemma InsertKeepsHost(s: Node, n: Name, ok: bool)
    requires HostOwned(s.range, s.d, Held(s.m.vms)) && CanTask(s, Insert(n, ok))
    requires JobHost(PlaceAt(s.d, s.m.vms[n].addr), s.m.jobs[n].pc)
    ensures HostOwned(s.range, DoTask(s, Insert(n, ok)).d, Held(s.m.vms))
  {
  }

  lemma SettlingKeepsHost(s: Node, st: TaskStep)
    requires Addresses(s) && HostOwned(s.range, s.d, Held(s.m.vms)) && CanTask(s, st)
    requires (st.Forget? || st.PutBackParked? || st.EndForced?) && Hosted(CellAt(s, st.n))
    ensures HostOwned(s.range, DoTask(s, st).d, Held(DoTask(s, st).m.vms))
  {
    var kind := s.m.jobs[st.n].kind;
    match st
    case Forget(n) =>
      SettleKeepsHost(s, n, if kind.replaced.Some? then Some(Ended(kind.replaced.value)) else None);
    case PutBackParked(n) => SettleKeepsHost(s, n, Some(Ended(kind.from)));
    case EndForced(n) => SettleKeepsHost(s, n, Some(Ended(kind.from.(reason := Forced))));
  }

  lemma MarkForcedKeepsHost(s: Node, n: Name, ok: bool)
    requires HostOwned(s.range, s.d, Held(s.m.vms)) && CanTask(s, MarkForced(n, ok))
    ensures HostOwned(s.range, DoTask(s, MarkForced(n, ok)).d, Held(s.m.vms))
  {
  }

  lemma TaskKeepsHost(s: Node, st: TaskStep)
    requires Addresses(s) && HostOwned(s.range, s.d, Held(s.m.vms)) && CanTask(s, st)
    requires !st.DropLog? && !st.Notify? ==> Hosted(CellAt(s, st.n))
    ensures HostOwned(s.range, DoTask(s, st).d, Held(DoTask(s, st).m.vms))
  {
    match st
    case Supervise(n) => SuperviseKeepsHost(s, n);
    case Insert(n, ok) => InsertKeepsHost(s, n, ok);
    case MarkForced(n, ok) => MarkForcedKeepsHost(s, n, ok);
    case Tidy(n) => HostSame(s.range, s.d, Held(s.m.vms), DoTask(s, st).d);
    case DropLog(t) => HostSame(s.range, s.d, Held(s.m.vms), DoTask(s, st).d);
    case Notify(t) =>
    case _ => SettlingKeepsHost(s, st);
  }

  lemma RecordEndKeepsHost(s: Node, n: Name, ok: bool)
    requires Addresses(s) && HostOwned(s.range, s.d, Held(s.m.vms)) && CanSup(s, RecordEnd(n, ok))
    requires Unwound(PlaceAt(s.d, s.m.vms[n].addr))
    ensures HostOwned(s.range, DoSup(s, RecordEnd(n, ok)).d, Held(DoSup(s, RecordEnd(n, ok)).m.vms))
  {
    SettleKeepsHost(s, n, Some(Ended(Record(s.m.sups[n].reason, s.m.vms[n].log, s.m.vms[n].route))));
  }

  /** Fewer VMMs, and the same host state. */
  lemma FewerVmms(range: set<Addr>, d: Disk, d': Disk, held: set<Addr>)
    requires HostOwned(range, d, held)
    requires d'.host == d.host && d'.leaked == d.leaked && d'.nextProc == d.nextProc && d'.rows == d.rows
    requires forall p | p in d'.alive :: p in d.alive && d'.alive[p] == d.alive[p]
    ensures HostOwned(range, d', held)
  {
  }

  lemma OtherSupKeepsHost(s: Node, st: SupStep)
    requires HostOwned(s.range, s.d, Held(s.m.vms)) && CanSup(s, st) && !st.RecordEnd? && !st.SupGone? && !st.ParkMove?
    ensures HostOwned(s.range, DoSup(s, st).d, Held(DoSup(s, st).m.vms))
  {
    FewerVmms(s.range, s.d, DoSup(s, st).d, Held(s.m.vms));
  }

  lemma SupKeepsHost(s: Node, st: SupStep)
    requires EachName(s) && Addresses(s) && HostOwned(s.range, s.d, Held(s.m.vms)) && CanSup(s, st)
    ensures HostOwned(s.range, DoSup(s, st).d, Held(DoSup(s, st).m.vms))
  {
    if st.RecordEnd? {
      assert Hosted(CellAt(s, st.n)) by { assert Local(CellAt(s, st.n)); }
      RecordEndKeepsHost(s, st.n, st.ok);
    } else if st.SupGone? {
      HoldsIt(s.m.vms, st.n);
      SweepKeepsHost(s.range, s.d, Held(s.m.vms), s.m.vms[st.n].addr);
    } else if st.ParkMove? {
      HoldsIt(s.m.vms, st.n);
      var a, d' := s.m.vms[st.n].addr, DoSup(s, st).d;
      HostChanged(s.range, s.d, Held(s.m.vms), a, d'.host[a], d');
    } else {
      OtherSupKeepsHost(s, st);
    }
  }

  // ----------------------------------------------------------------- logs --

  /** No name comes to use a log it did not use before, and only unused ones are set to be dropped. */
  lemma LogsNarrowed(logs: set<Log>, m: Mem, logs': set<Log>, m': Mem)
    requires LogsDistinct(logs, m)
    requires forall n, l | UsesLog(m', n, l) :: UsesLog(m, n, l)
    requires m.nextLog <= m'.nextLog && forall l | l in logs' :: l < m'.nextLog
    requires forall t | t in m'.tails && m'.tails[t].Some? ::
      m'.tails[t].value < m'.nextLog &&
      ((t in m.tails && m.tails[t] == m'.tails[t]) || forall n :: !UsesLog(m', n, m'.tails[t].value))
    ensures LogsDistinct(logs', m')
  {
  }

  lemma ReserveStartKeepsLogs(s: Node, n: Name, route: Option<Route>, a: Addr)
    requires LogsDistinct(s.d.logs, s.m) && CanApi(s, ReserveStart(n, route, a))
    ensures LogsDistinct(s.d.logs, DoApi(s, ReserveStart(n, route, a)).m)
  {
    var m' := DoApi(s, ReserveStart(n, route, a)).m;
    forall n', l | UsesLog(m', n', l) ensures UsesLog(s.m, n', l) || (n' == n && l == s.m.nextLog) { }
  }

  lemma ApiKeepsLogs(s: Node, st: ApiStep)
    requires LogsDistinct(s.d.logs, s.m) && CanApi(s, st)
    requires st.ReserveWake? ==> Shaped(CellAt(s, st.n))
    ensures LogsDistinct(DoApi(s, st).d.logs, DoApi(s, st).m)
  {
    if st.ReserveStart? {
      ReserveStartKeepsLogs(s, st.n, st.route, st.a);
    } else {
      var s' := DoApi(s, st);
      forall n, l | UsesLog(s'.m, n, l) ensures UsesLog(s.m, n, l) { }
      LogsNarrowed(s.d.logs, s.m, s'.d.logs, s'.m);
    }
  }

  lemma BuildKeepsLogs(s: Node, st: BuildStep)
    requires LogsDistinct(s.d.logs, s.m) && CanBuild(s, st)
    ensures LogsDistinct(DoBuild(s, st).d.logs, DoBuild(s, st).m)
  {
    var s' := DoBuild(s, st);
    assert UsesLog(s.m, st.n, s.m.vms[st.n].LogOf());
    forall n, l | UsesLog(s'.m, n, l) ensures UsesLog(s.m, n, l) { }
    LogsNarrowed(s.d.logs, s.m, s'.d.logs, s'.m);
  }

  lemma TaskUsesNoNewLog(s: Node, st: TaskStep, n: Name, l: Log)
    requires CanTask(s, st) && UsesLog(DoTask(s, st).m, n, l)
    requires !st.DropLog? && !st.Notify? ==> Shaped(CellAt(s, st.n))
    ensures UsesLog(s.m, n, l)
  {
  }

  /** A start that is forgotten is the only task that leaves a log to be dropped, its own. */
  lemma TaskLeavesLogs(s: Node, st: TaskStep)
    requires CanTask(s, st)
    ensures var s' := DoTask(s, st);
            && s'.m.nextLog == s.m.nextLog && s'.d.logs <= s.d.logs
            && forall t | t in s'.m.tails && s'.m.tails[t].Some? ::
                 (t in s.m.tails && s.m.tails[t] == s'.m.tails[t]) || (st.Forget? && s'.m.tails[t] == Some(s.m.vms[st.n].log))
  {
  }

  lemma ForgetFreesLog(s: Node, n: Name, n': Name)
    requires LogsDistinct(s.d.logs, s.m) && CanTask(s, Forget(n)) && Shaped(CellAt(s, n))
    ensures s.m.vms[n].log < s.m.nextLog && !UsesLog(DoTask(s, Forget(n)).m, n', s.m.vms[n].log)
  {
    assert UsesLog(s.m, n, s.m.vms[n].log);
    if UsesLog(DoTask(s, Forget(n)).m, n', s.m.vms[n].log) {
      TaskUsesNoNewLog(s, Forget(n), n', s.m.vms[n].log);
    }
  }

  lemma TaskKeepsLogs(s: Node, st: TaskStep)
    requires LogsDistinct(s.d.logs, s.m) && CanTask(s, st)
    requires !st.DropLog? && !st.Notify? ==> Shaped(CellAt(s, st.n))
    ensures LogsDistinct(DoTask(s, st).d.logs, DoTask(s, st).m)
  {
    var s' := DoTask(s, st);
    forall n, l | UsesLog(s'.m, n, l) ensures UsesLog(s.m, n, l) { TaskUsesNoNewLog(s, st, n, l); }
    TaskLeavesLogs(s, st);
    if st.Forget? {
      ForgetFreesLog(s, st.n, st.n);
      forall n ensures !UsesLog(s'.m, n, s.m.vms[st.n].log) { ForgetFreesLog(s, st.n, n); }
    }
    LogsNarrowed(s.d.logs, s.m, s'.d.logs, s'.m);
  }

  lemma SupKeepsLogs(s: Node, st: SupStep)
    requires LogsDistinct(s.d.logs, s.m) && CanSup(s, st)
    requires st.RecordEnd? ==> Shaped(CellAt(s, st.n))
    ensures LogsDistinct(DoSup(s, st).d.logs, DoSup(s, st).m)
  {
    var s' := DoSup(s, st);
    forall n, l | UsesLog(s'.m, n, l) ensures UsesLog(s.m, n, l) { }
    LogsNarrowed(s.d.logs, s.m, s'.d.logs, s'.m);
  }

  // -------------------------------------------------------- held requests --

  lemma ApiKeepsRequests(s: Node, st: ApiStep)
    requires Requests(s.m) && CanApi(s, st)
    ensures Requests(DoApi(s, st).m)
  {
  }

  lemma TaskKeepsRequests(s: Node, st: TaskStep)
    requires Requests(s.m) && CanTask(s, st)
    ensures Requests(DoTask(s, st).m)
  {
    var m' := DoTask(s, st).m;
    if st.Forget? || st.PutBackParked? || st.EndForced? || st.Supervise? {
      assert s.m.nextTail in m'.tails;
    } else if st.DropLog? {
      assert st.t in m'.tails;
    } else if !st.Notify? {
      assert m'.tails == s.m.tails && m'.jobs.Keys == s.m.jobs.Keys;
    }
  }

  lemma EdgeKeepsRequests(s: Node, st: EdgeStep)
    requires Requests(s.m) && CanEdge(s, st)
    requires st.Look? ==> Shaped(CellAt(s, st.n))
    ensures Requests(DoEdge(s, st).m)
  {
    assert DoEdge(s, st).m.tails == s.m.tails;
  }

  // -------------------------------------------------------------- numbers --

  lemma ApiKeepsNames(s: Node, st: ApiStep)
    requires Numbered(s.m) && Names(s) && CanApi(s, st)
    ensures Numbered(DoApi(s, st).m) && Names(DoApi(s, st))
  {
  }

  lemma TaskKeepsNumbered(s: Node, st: TaskStep)
    requires Numbered(s.m) && CanTask(s, st)
    ensures Numbered(DoTask(s, st).m)
  {
  }

  lemma TaskKeepsNames(s: Node, st: TaskStep)
    requires Names(s) && CanTask(s, st)
    requires st.Forget? ==> RowAgrees(CellAt(s, st.n))
    ensures Names(DoTask(s, st))
  {
  }

  lemma SupKeepsNames(s: Node, st: SupStep)
    requires Numbered(s.m) && Names(s) && CanSup(s, st)
    ensures Numbered(DoSup(s, st).m) && Names(DoSup(s, st))
  {
  }

  // ---------------------------------------------------------------- parks --

  /** Nothing a park depends on changes, but for entries that do not run. */
  lemma ParksSame(m: Mem, m': Mem)
    requires Parks(m) && m'.parks == m.parks && m'.sups == m.sups && m.nextInst <= m'.nextInst
    requires forall n :: (n in m.vms && m.vms[n].Running?) <==> (n in m'.vms && m'.vms[n].Running?)
    requires forall n | n in m.vms && m.vms[n].Running? :: m'.vms[n] == m.vms[n]
    ensures Parks(m')
  {
    forall c | c in m'.parks ensures ParkFits(m', c, m'.parks[c]) { assert ParkFits(m, c, m.parks[c]); }
    forall n | Owned(m', n) ensures SupFits(m', n, m'.vms[n].inst, m'.sups[n]) {
      assert SupFits(m, n, m.vms[n].inst, m.sups[n]);
    }
  }

  /** No supervisor has the park. */
  predicate LetGo(m: Mem, p: Park) {
    !p.Queued? || !StillAt(m, p.n, p.at) || (p.n in m.sups && m.sups[p.n].Gone?)
  }

  /** One park moves on, with nothing changed of the supervisors, and no supervisor has it. */
  lemma ParkMovesOn(m: Mem, c: Inst, m': Mem)
    requires Parks(m) && m' == m.(parks := m'.parks, tails := m'.tails, nextTail := m'.nextTail)
    requires forall c' | c' in m'.parks && c' != c :: c' in m.parks && m'.parks[c'] == m.parks[c']
    requires forall c' | c' in m.parks && c' != c :: c' in m'.parks
    requires c in m'.parks ==> ParkFits(m', c, m'.parks[c])
    requires c in m.parks ==> LetGo(m, m.parks[c])
    ensures Parks(m')
  {
    forall c' | c' in m'.parks ensures ParkFits(m', c', m'.parks[c']) {
      if c' != c { assert ParkFits(m, c', m.parks[c']); }
    }
    forall n | Owned(m', n) ensures SupFits(m', n, m'.vms[n].inst, m'.sups[n]) {
      assert SupFits(m, n, m.vms[n].inst, m.sups[n]);
      SupFitsStill(m, m', n, c);
    }
  }

  lemma SupFitsStill(m: Mem, m': Mem, n: Name, c: Inst)
    requires Owned(m, n) && SupFits(m, n, m.vms[n].inst, m.sups[n])
    requires forall c' | c' in m.parks && c' != c :: c' in m'.parks && m'.parks[c'] == m.parks[c']
    requires c in m.parks ==> LetGo(m, m.parks[c])
    ensures SupFits(m', n, m.vms[n].inst, m.sups[n])
  {
    forall c' | IsQueued(m, n, m.vms[n].inst, c') && !m.sups[n].Gone? ensures IsQueued(m', n, m.vms[n].inst, c') { }
  }

  lemma ApiKeepsParks(s: Node, st: ApiStep)
    requires Parks(s.m) && CanApi(s, st) && (st.ClaimPark? ==> s.m.vms[st.n].inst < s.m.nextInst)
    ensures Parks(DoApi(s, st).m)
  {
    var m' := DoApi(s, st).m;
    if st.ClaimPark? {
      ParkMovesOn(s.m, s.m.vms[st.n].inst, m');
    } else {
      ParksSame(s.m, m');
    }
  }

  lemma SuperviseKeepsParks(s: Node, n: Name)
    requires Parks(s.m) && CanTask(s, Supervise(n))
    ensures Parks(DoTask(s, Supervise(n)).m)
  {
    var m, m' := s.m, DoTask(s, Supervise(n)).m;
    forall c | c in m'.parks ensures ParkFits(m', c, m'.parks[c]) { assert ParkFits(m, c, m.parks[c]); }
    forall n' | Owned(m', n') ensures SupFits(m', n', m'.vms[n'].inst, m'.sups[n']) {
      if n' != n { assert SupFits(m, n', m.vms[n'].inst, m.sups[n']); }
    }
  }

  lemma TaskKeepsParks(s: Node, st: TaskStep)
    requires Parks(s.m) && CanTask(s, st)
    ensures Parks(DoTask(s, st).m)
  {
    if st.Supervise? { SuperviseKeepsParks(s, st.n); } else { ParksSame(s.m, DoTask(s, st).m); }
  }

  /** What a supervisor's step does to the parks: it takes at most one on, and moves at most one on. */
  lemma SupTakesPark(s: Node, st: SupStep, c: Inst)
    requires CanSup(s, st) && !st.VmmDies? && Owned(s.m, st.n) && SupFits(s.m, st.n, s.m.vms[st.n].inst, s.m.sups[st.n])
    requires c in s.m.parks && ParkFits(s.m, c, s.m.parks[c])
    ensures c in DoSup(s, st).m.parks && ParkFits(DoSup(s, st).m, c, DoSup(s, st).m.parks[c])
  {
  }

  lemma SupFitsOther(s: Node, st: SupStep, n: Name)
    requires CanSup(s, st) && !st.VmmDies? && SupFits(s.m, st.n, s.m.vms[st.n].inst, s.m.sups[st.n])
    requires n != st.n && Owned(s.m, n) && SupFits(s.m, n, s.m.vms[n].inst, s.m.sups[n])
    ensures SupFits(DoSup(s, st).m, n, s.m.vms[n].inst, s.m.sups[n])
  {
    forall c | IsQueued(s.m, n, s.m.vms[n].inst, c) ensures IsQueued(DoSup(s, st).m, n, s.m.vms[n].inst, c) { }
  }

  lemma SupFitsSelf(s: Node, st: SupStep)
    requires CanSup(s, st) && !st.VmmDies? && !st.RecordEnd? && SupFits(s.m, st.n, s.m.vms[st.n].inst, s.m.sups[st.n])
    ensures Owned(DoSup(s, st).m, st.n) && DoSup(s, st).m.vms == s.m.vms
    ensures SupFits(DoSup(s, st).m, st.n, s.m.vms[st.n].inst, DoSup(s, st).m.sups[st.n])
  {
  }

  lemma SupKeepsParks(s: Node, st: SupStep)
    requires Parks(s.m) && CanSup(s, st)
    ensures Parks(DoSup(s, st).m)
  {
    var m, m' := s.m, DoSup(s, st).m;
    if !st.VmmDies? {
      assert SupFits(m, st.n, m.vms[st.n].inst, m.sups[st.n]);
      SupFrame(s, st);
      forall c | c in m'.parks ensures ParkFits(m', c, m'.parks[c]) {
        SupAddsNoPark(s, st, c);
        SupTakesPark(s, st, c);
      }
      forall n | Owned(m', n) ensures SupFits(m', n, m'.vms[n].inst, m'.sups[n]) {
        if n != st.n { SupFitsOther(s, st, n); } else { SupFitsSelf(s, st); }
      }
    }
  }

  lemma SupAddsNoPark(s: Node, st: SupStep, c: Inst)
    requires CanSup(s, st) && !st.VmmDies? && SupFits(s.m, st.n, s.m.vms[st.n].inst, s.m.sups[st.n])
    requires c in DoSup(s, st).m.parks
    ensures c in s.m.parks
  {
  }

  lemma SendKeepsParks(s: Node, c: Inst)
    requires Parks(s.m) && Numbered(s.m) && CanPark(s, Send(c))
    ensures Parks(DoPark(s, Send(c)).m)
  {
    var m, m' := s.m, DoPark(s, Send(c)).m;
    var n := m.parks[c].n;
    forall c' | c' in m'.parks ensures ParkFits(m', c', m'.parks[c']) { assert ParkFits(m, c', m.parks[c']); }
    forall n' | Owned(m', n') ensures SupFits(m', n', m'.vms[n'].inst, m'.sups[n']) {
      assert SupFits(m, n', m.vms[n'].inst, m.sups[n']);
      SupFitsStill(m, m', n', c);
    }
  }

  lemma ParkKeepsParks(s: Node, st: ParkStep)
    requires Parks(s.m) && Numbered(s.m) && CanPark(s, st)
    ensures Parks(DoPark(s, st).m)
  {
    assert ParkFits(s.m, st.c, s.m.parks[st.c]);
    if st.Send? { SendKeepsParks(s, st.c); } else { ParkMovesOn(s.m, st.c, DoPark(s, st).m); }
  }

  // ---------------------------------------------------------- every step --

  lemma AppsAndClaimsCell(s: Node, st: ApiStep, n: Name)
    requires CanApi(s, st) && (st.RefuseStart? || st.AddApp? || st.RemoveApp? || st.ClaimPark?)
    ensures CellAt(DoApi(s, st), n) == CellAt(s, n)
  {
  }

  lemma ApiKeepsEachName(s: Node, st: ApiStep)
    requires Inv(s) && CanApi(s, st)
    ensures EachName(DoApi(s, st))
  {
    match st
    case ReserveStart(n, route, a) => ReserveStartCell(s, n, route, a);
    case ReserveWake(n, a) => ReserveWakeCell(s, n, a);
    case Remove(n) => RemoveCell(s, n);
    case RemoveFails(n, left) => RemoveFailsCell(s, n, left);
    case _ =>
      forall n ensures CellAt(DoApi(s, st), n) == CellAt(s, n) { AppsAndClaimsCell(s, st, n); }
      NoName(s, DoApi(s, st));
  }

  lemma BuildKeepsEachName(s: Node, st: BuildStep)
    requires Inv(s) && CanBuild(s, st)
    ensures EachName(DoBuild(s, st))
  {
    match st
    case Enter(n) => EnterCell(s, n);
    case EnterErr(n, made) => EnterErrCell(s, n, made);
    case MakeObj(n, o) => MakeObjCell(s, n, o);
    case MakeLog(n) => MakeLogCell(s, n);
    case SpawnVmm(n) => SpawnVmmCell(s, n);
    case WriteRootfs(n) => WriteRootfsCell(s, n);
    case MoveIn(n, f) => MoveInCell(s, n, f);
    case BuildOk(n) => BuildOkCell(s, n);
    case BuildErr(n) => BuildErrCell(s, n);
    case MoveBack(n, f) => MoveBackCell(s, n, f);
    case TakeCwd(n, f, found) => TakeCwdCell(s, n, f, found);
    case PutBackDone(n) => PutBackDoneCell(s, n);
    case Undo(n, o) => UndoCell(s, n, o);
    case UndoPart(n, left) => UndoPartCell(s, n, left);
    case UnwindDone(n) => UnwindDoneCell(s, n);
  }

  lemma TaskKeepsEachName(s: Node, st: TaskStep)
    requires Inv(s) && CanTask(s, st)
    ensures EachName(DoTask(s, st))
  {
    match st
    case Insert(n, ok) => InsertCell(s, n, ok);
    case MarkForced(n, ok) => MarkForcedCell(s, n, ok);
    case Forget(n) => ForgetCell(s, n);
    case PutBackParked(n) => PutBackParkedCell(s, n);
    case EndForced(n) => EndForcedCell(s, n);
    case Tidy(n) => TidyCell(s, n);
    case Supervise(n) => SuperviseCell(s, n);
    case DropLog(t) => DropLogCell(s, t);
    case Notify(t) => NoName(s, DoTask(s, st));
  }

  lemma SupKeepsEachName(s: Node, st: SupStep)
    requires Inv(s) && CanSup(s, st)
    ensures EachName(DoSup(s, st))
  {
    match st
    case VmmDies(p) => VmmDiesCell(s, p);
    case ParkBegin(n) => ParkBeginCell(s, n);
    case ParkRefused(n) => ParkRefusedCell(s, n);
    case ParkResumed(n, left) => ParkResumedCell(s, n, left);
    case ParkKill(n) => ParkKillCell(s, n);
    case ParkMove(n, f) => ParkMoveCell(s, n, f);
    case ParkOk(n) => ParkOkCell(s, n);
    case ParkLost(n, left) => ParkLostCell(s, n, left);
    case SupEnd(n, reason) => SupEndCell(s, n, reason);
    case SupGone(n) => SupGoneCell(s, n);
    case RecordEnd(n, ok) => RecordEndCell(s, n, ok);
  }

  lemma ApiKeeps(s: Node, st: ApiStep)
    requires Inv(s) && CanApi(s, st)
    ensures Inv(DoApi(s, st))
  {
    if st.ReserveWake? { assert Local(CellAt(s, st.n)); }
    ApiKeepsEachName(s, st);
    ApiKeepsAddresses(s, st);
    ApiKeepsHost(s, st);
    ApiKeepsLogs(s, st);
    ApiKeepsRequests(s, st);
    ApiKeepsParks(s, st);
    ApiKeepsNames(s, st);
  }

  /** What a step outside the table's lock leaves alone. */
  lemma BuildFrame(s: Node, st: BuildStep)
    requires CanBuild(s, st)
    ensures var s' := DoBuild(s, st);
            && s' == s.(d := s'.d, m := s.m.(jobs := s'.m.jobs)) && s'.m.jobs.Keys == s.m.jobs.Keys
            && s'.d.apps == s.d.apps && s'.d.rows == s.d.rows
  {
  }

  lemma SupFrame(s: Node, st: SupStep)
    requires CanSup(s, st)
    ensures var m' := DoSup(s, st).m; m' == s.m.(vms := m'.vms, sups := m'.sups, parks := m'.parks)
    ensures s.m.parks.Keys <= DoSup(s, st).m.parks.Keys
  {
  }

  lemma SameRequests(m: Mem, m': Mem)
    requires Requests(m) && m'.reqs == m.reqs && m'.tails == m.tails
    requires m'.jobs.Keys == m.jobs.Keys && m.parks.Keys <= m'.parks.Keys
    ensures Requests(m')
  {
  }

  lemma BuildKeeps(s: Node, st: BuildStep)
    requires Inv(s) && CanBuild(s, st)
    ensures Inv(DoBuild(s, st))
  {
    BuildKeepsEachName(s, st);
    BuildKeepsHost(s, st);
    BuildKeepsLogs(s, st);
    BuildFrame(s, st);
    SameRequests(s.m, DoBuild(s, st).m);
    ParksSame(s.m, DoBuild(s, st).m);
  }

  lemma TaskKeeps(s: Node, st: TaskStep)
    requires Inv(s) && CanTask(s, st)
    ensures Inv(DoTask(s, st))
  {
    if !st.DropLog? && !st.Notify? { assert Local(CellAt(s, st.n)); }
    TaskKeepsEachName(s, st);
    TaskKeepsAddresses(s, st);
    TaskKeepsHost(s, st);
    TaskKeepsLogs(s, st);
    TaskKeepsRequests(s, st);
    TaskKeepsParks(s, st);
    TaskKeepsNumbered(s, st);
    TaskKeepsNames(s, st);
  }

  lemma SupKeeps(s: Node, st: SupStep)
    requires Inv(s) && CanSup(s, st)
    ensures Inv(DoSup(s, st))
  {
    if st.RecordEnd? { assert Local(CellAt(s, st.n)); }
    SupKeepsEachName(s, st);
    SupKeepsAddresses(s, st);
    SupKeepsHost(s, st);
    SupKeepsLogs(s, st);
    SupKeepsNames(s, st);
    SupFrame(s, st);
    SupKeepsParks(s, st);
    SameRequests(s.m, DoSup(s, st).m);
  }

  lemma EdgeFrame(s: Node, st: EdgeStep)
    requires CanEdge(s, st)
    ensures DoEdge(s, st) == s.(m := s.m.(reqs := DoEdge(s, st).m.reqs))
  {
  }

  /** Who waits is nothing to anything but who is told. */
  lemma RequestsAreNothing(s: Node, reqs: map<Req, Hold>)
    requires Inv(s) && Requests(s.m.(reqs := reqs))
    ensures Inv(s.(m := s.m.(reqs := reqs)))
  {
    var s' := s.(m := s.m.(reqs := reqs));
    forall n ensures CellAt(s', n) == CellAt(s, n) { }
    NoName(s, s');
    ParksSame(s.m, s'.m);
    LogsSame(s.d.logs, s.m, reqs);
  }

  lemma LogsSame(logs: set<Log>, m: Mem, reqs: map<Req, Hold>)
    requires LogsDistinct(logs, m)
    ensures LogsDistinct(logs, m.(reqs := reqs))
  {
    var m' := m.(reqs := reqs);
    forall n, l | UsesLog(m', n, l) ensures UsesLog(m, n, l) { }
    LogsNarrowed(logs, m, logs, m');
  }

  lemma EdgeKeeps(s: Node, st: EdgeStep)
    requires Inv(s) && CanEdge(s, st)
    ensures Inv(DoEdge(s, st))
  {
    if st.Look? { assert Local(CellAt(s, st.n)); }
    EdgeKeepsRequests(s, st);
    EdgeFrame(s, st);
    RequestsAreNothing(s, DoEdge(s, st).m.reqs);
  }

  lemma ParkKeepsEachName(s: Node, st: ParkStep)
    requires EachName(s) && CanPark(s, st)
    ensures EachName(DoPark(s, st))
  {
    if st.Send? {
      SendCell(s, st.c);
    } else {
      forall n ensures CellAt(DoPark(s, st), n) == CellAt(s, n) { }
      NoName(s, DoPark(s, st));
    }
  }

  lemma ParkFrame(s: Node, st: ParkStep)
    requires CanPark(s, st)
    ensures var m' := DoPark(s, st).m;
            && DoPark(s, st) == s.(m := m')
            && m' == s.m.(parks := m'.parks, sups := m'.sups, tails := m'.tails, nextTail := m'.nextTail)
            && (st.Release? || m'.tails == s.m.tails)
  {
  }

  lemma ParkKeepsRequests(s: Node, st: ParkStep)
    requires Requests(s.m) && CanPark(s, st)
    ensures Requests(DoPark(s, st).m)
  {
    if st.Release? { assert s.m.nextTail in DoPark(s, st).m.tails; }
  }

  lemma ParkKeepsLogs(s: Node, st: ParkStep)
    requires LogsDistinct(s.d.logs, s.m) && CanPark(s, st)
    ensures LogsDistinct(s.d.logs, DoPark(s, st).m)
  {
    var m' := DoPark(s, st).m;
    forall n, l | UsesLog(m', n, l) ensures UsesLog(s.m, n, l) { }
    LogsNarrowed(s.d.logs, s.m, s.d.logs, m');
  }

  lemma ParkKeeps(s: Node, st: ParkStep)
    requires Inv(s) && CanPark(s, st)
    ensures Inv(DoPark(s, st))
  {
    ParkKeepsEachName(s, st);
    ParkKeepsRequests(s, st);
    ParkKeepsLogs(s, st);
    ParkKeepsParks(s, st);
    ParkFrame(s, st);
  }
}
