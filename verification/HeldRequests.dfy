/** Requests the edge holds for a start, a wake or a park are always told to look again. */
module HeldRequests {
  import opened Common
  import opened Registry
  import opened RegistryInvariant
  import opened RegistryRuns
  import opened NodeTheorems
  import opened JobProgress
  import opened ParkProgress
  import E = Edge

  // ------------------------------------------------------------ what it finds --

  /** A request that looks is held for a start exactly while the App is starting, for a park exactly while a park has
      claimed its VM, and else is let go; what it has heard it has still heard, and nothing else changes. */
  lemma LookExactly(s: Node, r: Req, host: string, n: Name)
    requires CanEdge(s, Look(r, host, n))
    ensures var reqs' := DoEdge(s, Look(r, host, n)).m.reqs;
            && (s.m.vms[n].Starting? <==> Get(reqs', r) == Some(Holding(n, OnStart, s.m.reqs[r].heard)))
            && (forall i :: s.m.vms[n].Running? && s.m.vms[n].inst == i && i in s.m.parks <==>
                  Get(reqs', r) == Some(Holding(n, OnPark(i), s.m.reqs[r].heard)))
            && (s.m.vms[n].Ended? || (s.m.vms[n].Running? && s.m.vms[n].inst !in s.m.parks) <==> r !in reqs')
            && (forall r' | r' != r :: Get(reqs', r') == Get(s.m.reqs, r'))
    ensures DoEdge(s, Look(r, host, n)) == s.(m := s.m.(reqs := DoEdge(s, Look(r, host, n)).m.reqs))
  {
  }

  /** A request listens before its first look and again before each later one, and is gone once it gives up. */
  lemma ListensExactly(s: Node, st: EdgeStep, r: Req)
    requires CanEdge(s, st) && !st.Look?
    ensures Get(DoEdge(s, st).m.reqs, r) ==
      if r != st.r then Get(s.m.reqs, r) else if st.GiveUp? then None else Some(Listening(false))
  {
  }

  /** What the table's look gives a request at the edge is what the request does at the table. */
  lemma LookAgrees(s: Node, r: Req, host: string, n: Name)
    requires CanEdge(s, Look(r, host, n))
    ensures var h := Get(DoEdge(s, Look(r, host, n)).m.reqs, r);
            match E.LookAt(s.m.vms[n], s.m.parks.Keys)
            case HoldStart => h.Some? && h.value.Holding? && h.value.name == n && h.value.on == OnStart
            case HoldPark => h.Some? && h.value.Holding? && h.value.name == n && h.value.on.OnPark?
            case Parked => h.None? && s.m.vms[n].Parked()
            case Answer => h.None? && !s.m.vms[n].Parked()
  {
    LookExactly(s, r, host, n);
  }

  predicate Waits(s: Node, r: Req) {
    r in s.m.reqs && s.m.reqs[r].Holding? && !s.m.reqs[r].heard
  }

  /** What a held request waits for is still under way. */
  predicate UnderWay(m: Mem, h: Hold)
    requires h.Holding?
  {
    match h.on
    case OnStart => h.name in m.jobs
    case OnPark(inst) => inst in m.parks
  }

  /** No wake-up is lost: a held request that has not been told yet always has a live task that
      will tell it, or one that has changed the table and is about to. */
  lemma NoLostWakeUp(ss: seq<Node>, sts: seq<Step>, i: nat, r: Req)
    requires IsRun(ss, sts) && i < |ss| && Waits(ss[i], r)
    ensures UnderWay(ss[i].m, ss[i].m.reqs[r]) || exists t :: t in ss[i].m.tails
  {
    EveryStateSound(ss, sts, i);
    assert WillHear(ss[i].m, ss[i].m.reqs[r]);
  }

  lemma ApiTellsAfter(s: Node, st: ApiStep, h: Hold)
    requires CanApi(s, st) && h.Holding? && UnderWay(s.m, h)
    ensures UnderWay(DoApi(s, st).m, h) || s.m.nextTail in DoApi(s, st).m.tails
  {
  }

  lemma TaskTellsAfter(s: Node, st: TaskStep, h: Hold)
    requires CanTask(s, st) && h.Holding? && UnderWay(s.m, h)
    ensures UnderWay(DoTask(s, st).m, h) || s.m.nextTail in DoTask(s, st).m.tails
  {
  }

  lemma BuildLeavesTasks(s: Node, st: BuildStep)
    requires CanBuild(s, st)
    ensures DoBuild(s, st).m.jobs.Keys == s.m.jobs.Keys && DoBuild(s, st).m.parks == s.m.parks
  {
  }

  lemma SupLeavesTasks(s: Node, st: SupStep, h: Hold)
    requires CanSup(s, st) && h.Holding? && UnderWay(s.m, h)
    ensures UnderWay(DoSup(s, st).m, h)
  {
    SupFrame(s, st);
  }

  lemma ParkTellsAfter(s: Node, st: ParkStep, h: Hold)
    requires CanPark(s, st) && h.Holding? && UnderWay(s.m, h)
    ensures UnderWay(DoPark(s, st).m, h) || s.m.nextTail in DoPark(s, st).m.tails
  {
  }

  lemma EdgeLeavesTasks(s: Node, st: EdgeStep)
    requires CanEdge(s, st)
    ensures DoEdge(s, st).m.jobs == s.m.jobs && DoEdge(s, st).m.parks == s.m.parks
  {
  }

  /** The step that ends what a request holds for leaves a task that has still to notify: the table
      changes, or the claim is released, first, and the request is told after. */
  lemma TableThenNotify(s: Node, st: Step, h: Hold)
    requires Can(s, st) && !st.Restart? && h.Holding? && UnderWay(s.m, h)
    ensures UnderWay(Do(s, st).m, h) || s.m.nextTail in Do(s, st).m.tails
  {
    match st
    case Api(st) => ApiTellsAfter(s, st, h);
    case Task(st) => TaskTellsAfter(s, st, h);
    case Build(st) => BuildLeavesTasks(s, st);
    case Super(st) => SupLeavesTasks(s, st, h);
    case Parking(st) => ParkTellsAfter(s, st, h);
    case Edge(st) => EdgeLeavesTasks(s, st);
  }

  // -------------------------------------------------------- what it has heard --

  /** Whether the steps of a run have told a request since it last listened. */
  function HeardIn(sts: seq<Step>, r: Req): bool {
    if sts == [] then false
    else
      match sts[|sts| - 1]
      case Edge(Listen(r')) => r' != r && HeardIn(sts[..|sts| - 1], r)
      case Edge(Resume(r')) => r' != r && HeardIn(sts[..|sts| - 1], r)
      case Task(Notify(_)) => true
      case _ => HeardIn(sts[..|sts| - 1], r)
  }

  predicate HasHeard(m: Mem, r: Req, heard: bool) { r in m.reqs ==> m.reqs[r].heard == heard }

  lemma EdgeHears(s: Node, st: EdgeStep, r: Req, before: bool)
    requires CanEdge(s, st) && HasHeard(s.m, r, before)
    ensures HasHeard(DoEdge(s, st).m, r, before && st != Listen(r) && st != Resume(r))
  {
  }

  lemma OthersHear(s: Node, st: Step, r: Req, before: bool)
    requires Can(s, st) && !st.Edge? && !st.Restart? && HasHeard(s.m, r, before)
    ensures HasHeard(Do(s, st).m, r, before || (st.Task? && st.task.Notify?))
  {
    match st
    case Build(st) => BuildFrame(s, st);
    case Super(st) => SupFrame(s, st);
    case Parking(st) => ParkFrame(s, st);
    case _ =>
  }

  /** A request has been told exactly when some task has notified since the request last listened. */
  lemma {:induction false} ToldExactly(ss: seq<Node>, sts: seq<Step>, i: nat, r: Req)
    requires IsRun(ss, sts) && i < |ss|
    ensures HasHeard(ss[i].m, r, HeardIn(sts[..i], r))
  {
    if i > 0 {
      ToldExactly(ss, sts, i - 1, r);
      assert sts[..i][..i - 1] == sts[..i - 1];
      var s, st := ss[i - 1], sts[i - 1];
      if st.Edge? { EdgeHears(s, st.edge, r, HeardIn(sts[..i - 1], r)); }
      else if !st.Restart? { OthersHear(s, st, r, HeardIn(sts[..i - 1], r)); }
    }
  }

  // ----------------------------------------------------- and it is told --

  ghost function First(tails: set<nat>): (t: nat)
    requires tails != {}
    ensures t in tails && forall t' | t' in tails :: t <= t'
    decreases tails
  {
    var t :| t in tails;
    if tails == {t} then t
    else
      var rest := First(tails - {t});
      assert forall t' | t' in tails :: t' == t || t' in tails - {t};
      if t < rest then t else rest
  }

  /** The step is one that a held request waits for: of the first task that has only to notify, or else of the
      start, wake or park it is held for. */
  ghost predicate OwnStep(s: Node, st: Step, r: Req)
    requires Waits(s, r)
  {
    if s.m.tails != map[] then
      var t := First(s.m.tails.Keys);
      st == Task(DropLog(t)) || st == Task(Notify(t))
    else match s.m.reqs[r].on
      case OnStart => JobStep(s, st, s.m.reqs[r].name)
      case OnPark(c) => ParkStepOf(s, st, c)
  }

  /** How many steps of its own a held request waits for, at most.  A park that is still to be sent counts as none,
      since how long the queue will be that it joins is not known yet. */
  ghost function Left(s: Node, r: Req): nat
    requires Waits(s, r)
  {
    if s.m.tails != map[] then if s.m.tails[First(s.m.tails.Keys)].Some? then 2 else 1
    else match s.m.reqs[r].on
      case OnStart => if HasJob(s, s.m.reqs[r].name) then 3 + JobRank(s, s.m.reqs[r].name) else 3
      case OnPark(c) => if c in s.m.parks then 3 + ParkRank(s, c) else 3
  }

  /** The request waits for a park that is still to be sent. */
  predicate ToSend(s: Node, r: Req)
    requires Waits(s, r)
  {
    s.m.tails == map[] && s.m.reqs[r].on.OnPark? &&
    s.m.reqs[r].on.inst in s.m.parks && s.m.parks[s.m.reqs[r].on.inst].Claimed?
  }

  /** The request has been told to look again. */
  predicate Told(s: Node, r: Req, h: Hold) { r in s.m.reqs && s.m.reqs[r] == Heard(h) }

  ghost predicate Closer(s: Node, s': Node, r: Req)
    requires Waits(s, r)
  {
    || Told(s', r, s.m.reqs[r])
    || (Waits(s', r) && s'.m.reqs[r] == s.m.reqs[r] && !ToSend(s', r) && (ToSend(s, r) || Left(s', r) < Left(s, r)))
  }

  lemma TailAdvances(s: Node, st: TaskStep, r: Req)
    requires Waits(s, r) && s.m.tails != map[] && CanTask(s, st) && OwnStep(s, Task(st), r)
    ensures Closer(s, DoTask(s, st), r)
  {
    var t := First(s.m.tails.Keys);
    if st == DropLog(t) {
      var s' := DoTask(s, st);
      assert s'.m.tails.Keys == s.m.tails.Keys;
    }
  }

  lemma AnyTailIsLast(s: Node, s': Node, r: Req)
    requires Waits(s, r) && s.m.tails == map[] && s'.m.reqs == s.m.reqs && s'.m.tails != map[]
    ensures Closer(s, s', r)
  {
  }

  lemma JobCloser(s: Node, s': Node, r: Req)
    requires Waits(s, r) && s.m.tails == map[] && s'.m.reqs == s.m.reqs && s'.m.tails == map[]
    requires s.m.reqs[r].on.OnStart?
    requires var n := s.m.reqs[r].name; HasJob(s, n) && n in s'.m.jobs && Nearer(s, s', n)
    ensures Closer(s, s', r)
  {
  }

  lemma ParkCloser(s: Node, s': Node, r: Req)
    requires Waits(s, r) && s.m.tails == map[] && s'.m.reqs == s.m.reqs && s'.m.tails == map[]
    requires s.m.reqs[r].on.OnPark?
    requires var c := s.m.reqs[r].on.inst; c in s.m.parks && c in s'.m.parks && ParkNearer(s, s', c)
    ensures Closer(s, s', r)
  {
  }

  lemma ApiLeavesReqs(s: Node, st: ApiStep)
    requires CanApi(s, st)
    ensures DoApi(s, st).m.reqs == s.m.reqs && DoApi(s, st).m.tails == s.m.tails
  {
  }

  lemma TaskLeavesReqs(s: Node, st: TaskStep)
    requires CanTask(s, st) && !st.Notify?
    ensures DoTask(s, st).m.reqs == s.m.reqs
  {
  }

  /** Only an edge step, or a notification, changes who waits. */
  lemma ReqsKept(s: Node, st: Step)
    requires Can(s, st) && !st.Edge? && !st.Restart? && !(st.Task? && st.task.Notify?)
    ensures Do(s, st).m.reqs == s.m.reqs
  {
    match st
    case Build(st) => BuildFrame(s, st);
    case Super(st) => SupFrame(s, st);
    case Parking(st) => ParkFrame(s, st);
    case Task(st) => TaskLeavesReqs(s, st);
    case Api(st) => ApiLeavesReqs(s, st);
  }

  lemma HasItsJob(s: Node, n: Name)
    requires Inv(s) && n in s.m.jobs
    ensures HasJob(s, n)
  {
    assert Local(CellAt(s, n));
  }

  lemma WorkAdvances(s: Node, st: Step, r: Req)
    requires Inv(s) && Waits(s, r) && s.m.tails == map[] && Can(s, st) && OwnStep(s, st, r)
    ensures Closer(s, Do(s, st), r)
  {
    var h, s' := s.m.reqs[r], Do(s, st);
    assert WillHear(s.m, h);
    ReqsKept(s, st);
    TableThenNotify(s, st, h);
    if s'.m.tails != map[] {
      AnyTailIsLast(s, s', r);
    } else {
      match h.on
      case OnStart =>
        HasItsJob(s, h.name);
        JobAdvances(s, st, h.name);
        JobCloser(s, s', r);
      case OnPark(c) =>
        ParkAdvances(s, st, c);
        ParkCloser(s, s', r);
    }
  }

  /** Every step that a held request waits for tells it, or brings that nearer. */
  lemma OwnStepAdvances(s: Node, st: Step, r: Req)
    requires Inv(s) && Waits(s, r) && Can(s, st) && OwnStep(s, st, r)
    ensures Closer(s, Do(s, st), r)
  {
    if s.m.tails == map[] { WorkAdvances(s, st, r); } else { TailAdvances(s, st.task, r); }
  }

  ghost predicate NotDelayed(s: Node, s': Node, r: Req)
    requires Waits(s, r) && Waits(s', r)
  {
    s'.m.reqs[r] == s.m.reqs[r] && (ToSend(s', r) ==> ToSend(s, r)) && Left(s', r) <= Left(s, r)
  }

  lemma StillHeld(s: Node, st: Step, r: Req)
    requires Waits(s, r) && Can(s, st) && !st.Restart? && Waits(Do(s, st), r)
    ensures Do(s, st).m.reqs[r] == s.m.reqs[r] && !(st.Task? && st.task.Notify?)
  {
    if !st.Edge? && !(st.Task? && st.task.Notify?) { ReqsKept(s, st); }
  }

  /** Tasks that have only to notify wait their turn: new ones come last. */
  predicate TailsGrow(m: Mem, st: Step, m': Mem) {
    && m.tails.Keys <= m'.tails.Keys && (forall t | t in m'.tails && t !in m.tails :: m.nextTail <= t)
    && (forall t | t in m.tails && st != Task(DropLog(t)) :: m'.tails[t] == m.tails[t])
  }

  lemma TaskKeepsTails(s: Node, st: TaskStep)
    requires Numbered(s.m) && CanTask(s, st) && !st.Notify?
    ensures TailsGrow(s.m, Task(st), DoTask(s, st).m)
  {
  }

  lemma ParkKeepsTails(s: Node, st: ParkStep)
    requires Numbered(s.m) && CanPark(s, st)
    ensures TailsGrow(s.m, Parking(st), DoPark(s, st).m)
  {
  }

  lemma TailsKept(s: Node, st: Step)
    requires Numbered(s.m) && Can(s, st) && !st.Restart? && !(st.Task? && st.task.Notify?)
    ensures TailsGrow(s.m, st, Do(s, st).m)
  {
    match st
    case Build(st) => BuildFrame(s, st);
    case Super(st) => SupFrame(s, st);
    case Edge(st) => EdgeFrame(s, st);
    case Parking(st) => ParkKeepsTails(s, st);
    case Task(st) => TaskKeepsTails(s, st);
    case Api(st) => ApiLeavesReqs(s, st);
  }

  lemma FirstKept(m: Mem, st: Step, m': Mem)
    requires Numbered(m) && m.tails != map[] && TailsGrow(m, st, m')
    ensures m'.tails != map[] && First(m'.tails.Keys) == First(m.tails.Keys)
  {
    assert First(m.tails.Keys) in m.tails.Keys;
  }

  lemma TailNotDelayed(s: Node, st: Step, r: Req)
    requires Numbered(s.m) && Waits(s, r) && s.m.tails != map[] && Can(s, st) && !st.Restart? && !OwnStep(s, st, r)
    requires Waits(Do(s, st), r)
    ensures NotDelayed(s, Do(s, st), r)
  {
    StillHeld(s, st, r);
    TailsKept(s, st);
    FirstKept(s.m, st, Do(s, st).m);
  }

  lemma WorkNotDelayed(s: Node, st: Step, r: Req)
    requires Inv(s) && Waits(s, r) && s.m.tails == map[] && Can(s, st) && !st.Restart? && !OwnStep(s, st, r)
    requires Waits(Do(s, st), r)
    ensures NotDelayed(s, Do(s, st), r)
  {
    var h, s' := s.m.reqs[r], Do(s, st);
    assert WillHear(s.m, h);
    StillHeld(s, st, r);
    if s'.m.tails == map[] {
      match h.on
      case OnStart =>
        HasItsJob(s, h.name);
        JobNotDelayed(s, st, h.name);
      case OnPark(c) => ParkNotDelayed(s, st, c);
    }
  }

  /** Nobody else's step delays it. */
  lemma OthersDoNotDelay(s: Node, st: Step, r: Req)
    requires Inv(s) && Waits(s, r) && Can(s, st) && !st.Restart? && !OwnStep(s, st, r) && Waits(Do(s, st), r)
    ensures NotDelayed(s, Do(s, st), r)
  {
    if s.m.tails == map[] { WorkNotDelayed(s, st, r); } else { TailNotDelayed(s, st, r); }
  }

  /** A held request always has something to wait for that can go on. */
  lemma AlwaysGoesOn(s: Node, r: Req) returns (st: Step)
    requires Inv(s) && Waits(s, r)
    ensures Can(s, st) && OwnStep(s, st, r)
  {
    if s.m.tails != map[] {
      var t := First(s.m.tails.Keys);
      st := if s.m.tails[t].Some? then Task(DropLog(t)) else Task(Notify(t));
    } else {
      var h := s.m.reqs[r];
      assert WillHear(s.m, h);
      match h.on
      case OnStart =>
        HasItsJob(s, h.name);
        assert Shaped(CellAt(s, h.name)) by { assert Local(CellAt(s, h.name)); }
        st := JobGoesOn(s, h.name);
      case OnPark(c) => st := ParkGoesOn(s, c);
    }
  }

  /** Steps that the request waits for, one after the other, for as long as it waits. */
  ghost predicate Schedule(s: Node, r: Req, sts: seq<Step>)
    decreases |sts|
  {
    sts == [] || (Waits(s, r) && Can(s, sts[0]) && OwnStep(s, sts[0], r) && Schedule(Do(s, sts[0]), r, sts[1..]))
  }

  ghost function After(s: Node, r: Req, sts: seq<Step>): Node
    requires Schedule(s, r, sts)
    decreases |sts|
  {
    if sts == [] then s else After(Do(s, sts[0]), r, sts[1..])
  }

  /** How long a schedule can be: a park that is still to be sent is sent first. */
  ghost function Bound(s: Node, r: Req): nat
    requires Waits(s, r)
  {
    if !ToSend(s, r) then Left(s, r)
    else
      var s' := DoPark(s, Send(s.m.reqs[r].on.inst));
      if Waits(s', r) then 1 + Left(s', r) else 1
  }

  lemma SendComesFirst(s: Node, st: Step, r: Req)
    requires Waits(s, r) && ToSend(s, r) && Can(s, st) && OwnStep(s, st, r)
    ensures st == Parking(Send(s.m.reqs[r].on.inst))
  {
  }

  lemma BoundShrinks(s: Node, st: Step, r: Req)
    requires Inv(s) && Waits(s, r) && Can(s, st) && OwnStep(s, st, r)
    ensures 1 <= Bound(s, r) && (Waits(Do(s, st), r) ==> Bound(Do(s, st), r) < Bound(s, r))
    ensures Waits(Do(s, st), r) ==> Do(s, st).m.reqs[r] == s.m.reqs[r]
    ensures !Waits(Do(s, st), r) ==> Told(Do(s, st), r, s.m.reqs[r])
  {
    OwnStepAdvances(s, st, r);
    if ToSend(s, r) { SendComesFirst(s, st, r); }
  }

  /** A schedule has come to where the request is told, or to where it can go on. */
  ghost predicate ToldOrGoesOn(s: Node, r: Req, h: Hold) {
    if Waits(s, r) then exists st :: Can(s, st) && OwnStep(s, st, r) else Told(s, r, h)
  }

  lemma GoesOnHere(s: Node, r: Req, h: Hold)
    requires Inv(s) && Waits(s, r)
    ensures ToldOrGoesOn(s, r, h)
  {
    var st := AlwaysGoesOn(s, r);
  }

  /** Whatever order they come in and however they end, the steps a held request waits for are soon all taken: no
      schedule of them is longer than its bound, and one that cannot go on has told the request to look again. */
  lemma {:induction false} EveryScheduleTells(s: Node, r: Req, sts: seq<Step>)
    requires Inv(s) && Waits(s, r) && Schedule(s, r, sts)
    ensures |sts| <= Bound(s, r)
    ensures ToldOrGoesOn(After(s, r, sts), r, s.m.reqs[r])
    decreases |sts|
  {
    if sts == [] {
      GoesOnHere(s, r, s.m.reqs[r]);
    } else {
      var s' := Do(s, sts[0]);
      BoundShrinks(s, sts[0], r);
      StepKeepsInv(s, sts[0]);
      assert After(s, r, sts) == After(s', r, sts[1..]);
      if Waits(s', r) {
        EveryScheduleTells(s', r, sts[1..]);
      } else {
        assert sts[1..] == [];
      }
    }
  }

  // ------------------------------------------- whatever else goes on --

  /** How many of the steps of a run, from state `i` to state `j`, are ones the request waits for. */
  ghost function OwnSteps(ss: seq<Node>, sts: seq<Step>, i: nat, j: nat, r: Req): nat
    requires i <= j < |ss| && |ss| == |sts| + 1
    requires forall k | i <= k <= j :: Waits(ss[k], r)
    decreases j - i
  {
    if i == j then 0 else One(OwnStep(ss[i], sts[i], r)) + OwnSteps(ss, sts, i + 1, j, r)
  }

  /** Each step of a run of waiting is one that the request waits for and brings it closer, or does not delay it. */
  ghost predicate Progress(s: Node, st: Step, s': Node, r: Req)
    requires Waits(s, r) && Waits(s', r)
  {
    if OwnStep(s, st, r) then !ToSend(s', r) && (ToSend(s, r) || Left(s', r) < Left(s, r))
    else (ToSend(s', r) ==> ToSend(s, r)) && Left(s', r) <= Left(s, r)
  }

  lemma StepProgress(s: Node, st: Step, r: Req)
    requires Inv(s) && Waits(s, r) && Can(s, st) && !st.Restart? && Waits(Do(s, st), r)
    ensures Progress(s, st, Do(s, st), r)
  {
    if OwnStep(s, st, r) { OwnStepAdvances(s, st, r); } else { OthersDoNotDelay(s, st, r); }
  }

  lemma RunProgress(ss: seq<Node>, sts: seq<Step>, k: nat, r: Req)
    requires IsRun(ss, sts) && k < |sts| && Waits(ss[k], r) && Waits(ss[k + 1], r) && !sts[k].Restart?
    ensures Progress(ss[k], sts[k], ss[k + 1], r)
  {
    EveryStateSound(ss, sts, k);
    StepProgress(ss[k], sts[k], r);
  }

  /** The park the request waits for is sent at step `k`. */
  ghost predicate SentAt(ss: seq<Node>, sts: seq<Step>, k: nat, r: Req)
    requires k < |sts| && |ss| == |sts| + 1 && Waits(ss[k], r)
  {
    ToSend(ss[k], r) && OwnStep(ss[k], sts[k], r)
  }

  lemma {:induction false} ProgressAddsUp(ss: seq<Node>, sts: seq<Step>, i: nat, j: nat, r: Req)
    requires i <= j < |ss| && |ss| == |sts| + 1 && (forall k | i <= k <= j :: Waits(ss[k], r))
    requires forall k | i <= k < j :: Progress(ss[k], sts[k], ss[k + 1], r)
    ensures OwnSteps(ss, sts, i, j, r) <= Left(ss[i], r) ||
      exists k :: i <= k < j && SentAt(ss, sts, k, r) && OwnSteps(ss, sts, i, j, r) <= 1 + Left(ss[k + 1], r)
    ensures !ToSend(ss[i], r) ==> OwnSteps(ss, sts, i, j, r) <= Left(ss[i], r)
    decreases j - i
  {
    if i < j {
      ProgressAddsUp(ss, sts, i + 1, j, r);
      assert Progress(ss[i], sts[i], ss[i + 1], r);
      if OwnStep(ss[i], sts[i], r) && ToSend(ss[i], r) {
        assert SentAt(ss, sts, i, r);
      } else if !(OwnSteps(ss, sts, i + 1, j, r) <= Left(ss[i + 1], r)) {
        var k :| i + 1 <= k < j && SentAt(ss, sts, k, r) && OwnSteps(ss, sts, i + 1, j, r) <= 1 + Left(ss[k + 1], r);
      }
    }
  }

  /** In any run, whatever else goes on, a request cannot wait for longer than the steps it waits for: as long as it is
      not told, no more of them are taken than were left, or, for a park, than were left once it was sent. */
  lemma WaitsNoLonger(ss: seq<Node>, sts: seq<Step>, i: nat, j: nat, r: Req)
    requires IsRun(ss, sts) && i <= j < |ss| && (forall k | i <= k <= j :: Waits(ss[k], r))
    requires forall k | i <= k < j :: !sts[k].Restart?
    ensures OwnSteps(ss, sts, i, j, r) <= Left(ss[i], r) ||
      exists k :: i <= k < j && SentAt(ss, sts, k, r) && OwnSteps(ss, sts, i, j, r) <= 1 + Left(ss[k + 1], r)
  {
    forall k | i <= k < j ensures Progress(ss[k], sts[k], ss[k + 1], r) {
      assert Waits(ss[k], r) && Waits(ss[k + 1], r);
      RunProgress(ss, sts, k, r);
    }
    ProgressAddsUp(ss, sts, i, j, r);
  }
}
