/** PID 1 in the guest: `main`, the handler that interrupts it between any two of its steps, the app it starts and
    the other processes it has to reap. */
module GuestInit {
  import opened Common

  type Pid = nat

  /** Where `main` is. */
  datatype Pc =
    | Booting        // Ctrl-Alt-Del resets the machine
    | Soft           // it sends SIGINT now, which has no handler yet
    | Ready          // the handler is in place
    | Accepting      // blocked in `accept`, for the host to connect
    | Reading        // reading the app's config
    | Forked         // the app runs; `APP_PID` is still 0
    | Stored         // `APP_PID` is set; `SHUTDOWN_PENDING` is not looked at yet
    | Forwarding     // it was set
    | Reaping        // in the `waitpid` loop
    | Reaped         // `waitpid` has returned the app; `APP_PID` is still its pid
    | Sweeping       // in the loop, with `APP_PID` 0 again
    | Down           // `reboot`
    | Reset          // Ctrl-Alt-Del reset the machine
    | Panicked       // PID 1 panicked

  datatype State = State(
    pc: Pc,
    appPid: Pid,               // `APP_PID`
    pending: bool,             // `SHUTDOWN_PENDING`
    app: Pid,                  // the pid `fork` gave, 0 before
    reaped: bool,              // `waitpid` has returned that process
    running: set<Pid>,         // PID 1's children that run
    zombies: set<Pid>,         // and those that have ended and are not reaped
    below: set<Pid>,           // the processes that are another's children
    sent: nat,                 // history: how many signals have come; they are numbered from 0
    waiting: set<nat>,         // history: those handled, and not yet followed by a SIGTERM to the app
    answered: set<nat>,        // history: those that were
    hits: nat)                 // history: the SIGTERMs that went to some other process

  datatype Step =
    | SetSoft
    | SetHandler
    | Listen
    | Accept
    | Fork(pid: Pid)
    | Store
    | LookPending
    | Forward
    | ReapApp
    | ReapOther(pid: Pid)
    | Clear
    | NoChildren
    | Signal
    | Ends(pid: Pid)
    | Spawn(pid: Pid)           // some other process forks
    | BelowEnds(pid: Pid)       // and reaps a child of its own
    | Orphan(pid: Pid)          // a process loses its parent and becomes PID 1's child

  function Children(s: State): set<Pid> { s.running + s.zombies }

  /** The pids that some process has. */
  function InUse(s: State): set<Pid> { s.running + s.zombies + s.below }

  predicate Can(s: State, st: Step) {
    match st
    case SetSoft => s.pc.Booting?
    case SetHandler => s.pc.Soft?
    case Listen => s.pc.Ready?
    case Accept => s.pc.Accepting?
    case Fork(pid) => s.pc.Reading? && pid > 0 && pid !in InUse(s)
    case Store => s.pc.Forked?
    case LookPending => s.pc.Stored?
    case Forward => s.pc.Forwarding?
    case ReapApp => s.pc.Reaping? && s.app in s.zombies
    case ReapOther(pid) => (s.pc.Reaping? || s.pc.Sweeping?) && pid in s.zombies && (s.pc.Reaping? ==> pid != s.app)
    case Clear => s.pc.Reaped?
    case NoChildren => (s.pc.Reaping? || s.pc.Sweeping?) && Children(s) == {}
    case Signal => !s.pc.Down? && !s.pc.Reset? && !s.pc.Panicked?
    case Ends(pid) => pid in s.running
    case Spawn(pid) => s.running != {} && pid > 0 && pid !in InUse(s)
    case BelowEnds(pid) => pid in s.below
    case Orphan(pid) => pid in s.below
  }

  /** SIGTERM to whichever process has `pid`, if one has. */
  function Terminate(s: State, pid: Pid): State {
    if pid == s.app && !s.reaped then s.(answered := s.answered + s.waiting, waiting := {})
    else if pid in InUse(s) then s.(hits := s.hits + 1)
    else s
  }

  /** The handler, whole. */
  function Handled(s: State): State {
    var s' := s.(waiting := s.waiting + {s.sent});
    if s.appPid > 0 then Terminate(s', s.appPid) else s'.(pending := true)
  }

  /** A shutdown request of the host's. */
  function Signalled(s: State): State {
    (if s.pc.Booting? then s.(pc := Reset)
     else if s.pc.Soft? then s
     else if s.pc.Accepting? then Handled(s).(pc := Panicked)
     else Handled(s)).(sent := s.sent + 1)
  }

  function Do(s: State, st: Step): State
    requires Can(s, st)
  {
    match st
    case SetSoft => s.(pc := Soft)
    case SetHandler => s.(pc := Ready)
    case Listen => s.(pc := Accepting)
    case Accept => s.(pc := Reading)
    case Fork(pid) => s.(pc := Forked, app := pid, running := s.running + {pid})
    case Store => s.(pc := Stored, appPid := s.app)
    case LookPending => s.(pc := if s.pending then Forwarding else Reaping)
    case Forward => Terminate(s, s.app).(pc := Reaping)
    case ReapApp => s.(pc := Reaped, reaped := true, zombies := s.zombies - {s.app})
    case ReapOther(pid) => s.(zombies := s.zombies - {pid})
    case Clear => s.(pc := Sweeping, appPid := 0)
    case NoChildren => s.(pc := Down)
    case Signal => Signalled(s)
    case Ends(pid) =>
      // The last one to end leaves all the others to PID 1.
      if s.running == {pid} then s.(running := s.below, below := {}, zombies := s.zombies + {pid})
      else s.(running := s.running - {pid}, zombies := s.zombies + {pid})
    case Spawn(pid) => s.(below := s.below + {pid})
    case BelowEnds(pid) => s.(below := s.below - {pid})
    case Orphan(pid) => s.(below := s.below - {pid}, running := s.running + {pid})
  }

  const Boot := State(Booting, 0, false, 0, false, {}, {}, {}, 0, {}, {}, 0)

  ghost predicate IsRun(ss: seq<State>, sts: seq<Step>) {
    && |ss| == |sts| + 1 && ss[0] == Boot
    && forall k | 0 <= k < |sts| :: Can(ss[k], sts[k]) && Do(ss[k], sts[k]) == ss[k + 1]
  }

  predicate BeforeFork(pc: Pc) {
    pc.Booting? || pc.Soft? || pc.Ready? || pc.Accepting? || pc.Reading? || pc.Reset? || pc.Panicked?
  }

  predicate AppUnreaped(pc: Pc) { pc.Forked? || pc.Stored? || pc.Forwarding? || pc.Reaping? }

  /** `main` has still to look whether a signal came before the app. */
  predicate StillToLook(pc: Pc) {
    pc.Ready? || pc.Accepting? || pc.Reading? || pc.Forked? || pc.Stored? || pc.Forwarding? || pc.Panicked?
  }

  ghost predicate Processes(s: State) {
    && (BeforeFork(s.pc) || s.pc.Down? ==> InUse(s) == {})
    && (AppUnreaped(s.pc) ==> s.app in Children(s))
    && (s.running == {} ==> s.below == {})
    && s.running !! s.zombies && s.below !! Children(s) && 0 !in InUse(s)
  }

  ghost predicate Inv(s: State) {
    && Processes(s)
    && (s.app == 0 <==> BeforeFork(s.pc))
    && (s.reaped <==> s.pc.Reaped? || s.pc.Sweeping? || s.pc.Down?)
    && (BeforeFork(s.pc) || s.pc.Forked? || s.pc.Sweeping? ==> s.appPid == 0)
    && (s.pc.Stored? || s.pc.Forwarding? || s.pc.Reaping? || s.pc.Reaped? ==> s.appPid == s.app)
    && (s.waiting != {} ==> s.reaped || (s.pending && StillToLook(s.pc)))
    && (s.hits > 0 ==> s.reaped)
    && (forall id | id in s.waiting || id in s.answered :: id < s.sent)
  }

  lemma ProcessesKept(s: State, st: Step)
    requires Processes(s) && Can(s, st) && (s.app == 0 <==> BeforeFork(s.pc))
    ensures Processes(Do(s, st))
  {
  }

  lemma StepKeepsInv(s: State, st: Step)
    requires Inv(s) && Can(s, st)
    ensures Inv(Do(s, st))
  {
    ProcessesKept(s, st);
  }

  lemma {:induction false} EveryStateSound(ss: seq<State>, sts: seq<Step>, k: nat)
    requires IsRun(ss, sts) && k < |ss|
    ensures Inv(ss[k])
  {
    if k > 0 {
      EveryStateSound(ss, sts, k - 1);
      StepKeepsInv(ss[k - 1], sts[k - 1]);
    }
  }

  // --------------------------------------------------- every shutdown request --

  /** A signal that comes now is followed, sooner or later, by a SIGTERM to the app, if there is ever one. */
  predicate Heard(s: State) { !s.pc.Booting? && !s.pc.Soft? && !s.pc.Accepting? && !s.reaped }

  /** It has been answered, or waits where it will be. */
  ghost predicate OnItsWay(s: State, id: nat) {
    id in s.answered || (id in s.waiting && !s.reaped && s.pending && StillToLook(s.pc))
  }

  ghost predicate PastHelp(s: State, id: nat) {
    id < s.sent && id !in s.answered && (id !in s.waiting || s.reaped || s.pc.Panicked?)
  }

  ghost predicate Fate(s: State, id: nat, heard: bool) { if heard then OnItsWay(s, id) else PastHelp(s, id) }

  lemma FateSealed(s: State)
    requires Inv(s) && Can(s, Signal)
    ensures Fate(Do(s, Signal), s.sent, Heard(s))
  {
  }

  lemma FateKept(s: State, st: Step, id: nat, heard: bool)
    requires Inv(s) && Can(s, st) && Fate(s, id, heard)
    ensures Fate(Do(s, st), id, heard)
  {
  }

  ghost predicate FateGoesOn(ss: seq<State>, k: nat, id: nat, heard: bool)
    requires k + 1 < |ss|
  {
    Fate(ss[k], id, heard) ==> Fate(ss[k + 1], id, heard)
  }

  lemma {:induction false} FateAlways(ss: seq<State>, j: nat, k: nat, id: nat, heard: bool)
    requires j <= k < |ss| && Fate(ss[j], id, heard)
    requires forall m | j <= m < k :: FateGoesOn(ss, m, id, heard)
    ensures Fate(ss[k], id, heard)
  {
    if j < k {
      FateAlways(ss, j, k - 1, id, heard);
      assert FateGoesOn(ss, k - 1, id, heard);
    }
  }

  lemma FateInRun(ss: seq<State>, sts: seq<Step>, j: nat, k: nat)
    requires IsRun(ss, sts) && j < k < |ss| && sts[j].Signal?
    ensures Fate(ss[k], ss[j].sent, Heard(ss[j]))
  {
    EveryStateSound(ss, sts, j);
    FateSealed(ss[j]);
    forall m | j + 1 <= m < k ensures FateGoesOn(ss, m, ss[j].sent, Heard(ss[j])) {
      EveryStateSound(ss, sts, m);
      if Fate(ss[m], ss[j].sent, Heard(ss[j])) { FateKept(ss[m], sts[m], ss[j].sent, Heard(ss[j])); }
    }
    FateAlways(ss, j + 1, k, ss[j].sent, Heard(ss[j]));
  }

  /** Once `main` waits for the app, a shutdown request has been followed by a SIGTERM to the app if and only if it
      came when the handler was in place, not while `main` was in `accept`, and before the app was reaped.  One that
      came otherwise never is. */
  lemma AnsweredExactly(ss: seq<State>, sts: seq<Step>, j: nat, k: nat)
    requires IsRun(ss, sts) && j < k < |ss| && sts[j].Signal?
    ensures ss[k].pc.Reaping? || ss[k].reaped ==> (ss[j].sent in ss[k].answered <==> Heard(ss[j]))
    ensures ss[j].sent in ss[k].answered ==> Heard(ss[j])
  {
    EveryStateSound(ss, sts, k);
    FateInRun(ss, sts, j, k);
  }

  /** Once `APP_PID` is set and until the app is reaped, a signal is a SIGTERM to the app there and then. */
  lemma ForwardedAtOnce(s: State)
    requires Inv(s) && (s.pc.Stored? || s.pc.Forwarding? || s.pc.Reaping?)
    ensures s.sent in Do(s, Signal).answered && Do(s, Signal).waiting == {} && Do(s, Signal).hits == 0
  {
  }

  /** `main`'s own next step on the way to the app. */
  function Next(s: State, pid: Pid): Step
    requires s.pc.Ready? || s.pc.Accepting? || s.pc.Reading? || s.pc.Forked? || s.pc.Stored? || s.pc.Forwarding?
  {
    match s.pc
    case Ready => Listen
    case Accepting => Accept
    case Reading => Fork(pid)
    case Forked => Store
    case Stored => LookPending
    case _ => Forward
  }

  function ToGo(pc: Pc): nat {
    match pc
    case Ready => 6
    case Accepting => 5
    case Reading => 4
    case Forked => 3
    case Stored => 2
    case Forwarding => 1
    case _ => 0
  }

  ghost predicate Leads(s: State, sts: seq<Step>, s': State)
    decreases |sts|
  {
    if sts == [] then s == s' else !sts[0].Signal? && Can(s, sts[0]) && Leads(Do(s, sts[0]), sts[1..], s')
  }

  /** A signal that came before the app, and is not answered yet, is answered by `main`'s own next steps, unless
      PID 1 panics first. */
  lemma {:induction false} StillForwarded(s: State, pid: Pid) returns (sts: seq<Step>, s': State)
    requires Inv(s) && s.waiting != {} && ToGo(s.pc) > 0 && pid > 0
    ensures Leads(s, sts, s') && s'.waiting == {} && s.waiting <= s'.answered && s'.pc.Reaping?
    decreases ToGo(s.pc)
  {
    var st := Next(s, pid);
    StepKeepsInv(s, st);
    var t := Do(s, st);
    if s.pc.Forwarding? {
      sts, s' := [st], t;
      assert sts[1..] == [] && Leads(t, [], t);
    } else {
      var rest;
      rest, s' := StillForwarded(t, pid);
      sts := [st] + rest;
      assert sts[1..] == rest;
    }
  }

  /** PID 1 panics exactly when a signal interrupts `accept`. */
  lemma {:induction false} PanicsExactly(ss: seq<State>, sts: seq<Step>, k: nat)
    requires IsRun(ss, sts) && k < |ss|
    ensures ss[k].pc.Panicked? <==> exists j :: 0 <= j < k && sts[j].Signal? && ss[j].pc.Accepting?
  {
    if k > 0 {
      PanicsExactly(ss, sts, k - 1);
      EveryStateSound(ss, sts, k - 1);
      assert Can(ss[k - 1], sts[k - 1]) && Do(ss[k - 1], sts[k - 1]) == ss[k];
    }
  }

  lemma PanicIsTheEnd(s: State, st: Step)
    requires Inv(s) && s.pc.Panicked?
    ensures !Can(s, st)
  {
  }

  /** And then nothing follows: that signal, with every one before it, never becomes a SIGTERM, for there is no app. */
  lemma NeverForwarded(ss: seq<State>, sts: seq<Step>, j: nat)
    requires IsRun(ss, sts) && j < |sts| && sts[j].Signal? && ss[j].pc.Accepting?
    ensures |sts| == j + 1 && ss[j + 1].app == 0 && ss[j].sent in ss[j + 1].waiting
  {
    EveryStateSound(ss, sts, j);
    EveryStateSound(ss, sts, j + 1);
    assert Can(ss[j], sts[j]) && Do(ss[j], sts[j]) == ss[j + 1];
    if j + 1 < |sts| { PanicIsTheEnd(ss[j + 1], sts[j + 1]); }
  }

  /** The machine goes down in order only when no other process is left at all, and then there never is one again. */
  lemma DownWithoutProcesses(ss: seq<State>, sts: seq<Step>, k: nat)
    requires IsRun(ss, sts) && k < |ss| && ss[k].pc.Down?
    ensures InUse(ss[k]) == {} && forall st | Can(ss[k], st) :: false
  {
    EveryStateSound(ss, sts, k);
  }

  /** A process that loses its parent is PID 1's to reap: no process is lost, and once it ends the loop takes it. */
  lemma OrphansAreReaped(s: State, pid: Pid)
    requires Inv(s) && Can(s, Orphan(pid))
    ensures var s' := Do(s, Orphan(pid));
            && InUse(s') == InUse(s) && pid in s'.running && Can(s', Ends(pid))
            && pid in Do(s', Ends(pid)).zombies
            && (s.pc.Sweeping? ==> Can(Do(s', Ends(pid)), ReapOther(pid)))
  {
  }

  /** What the `waitpid` loop does next once every process has ended. */
  function NextReap(s: State, pid: Pid): Step
    requires s.pc.Reaping? || s.pc.Reaped? || s.pc.Sweeping?
  {
    if s.pc.Reaped? then Clear
    else if s.zombies == {} then NoChildren
    else if s.pc.Reaping? && pid == s.app then ReapApp
    else ReapOther(pid)
  }

  /** Once every process has ended, `main`'s own next steps reap them all and take the machine down. */
  lemma {:induction false} PowersOff(s: State) returns (sts: seq<Step>, s': State)
    requires Inv(s) && (s.pc.Reaping? || s.pc.Reaped? || s.pc.Sweeping?) && s.running == {}
    ensures Leads(s, sts, s') && s'.pc.Down? && s'.answered == s.answered
    decreases |s.zombies|, if s.pc.Reaped? then 1 else 0
  {
    var pid: Pid := 0;
    if s.zombies != {} { pid :| pid in s.zombies; }
    var st := NextReap(s, pid);
    StepKeepsInv(s, st);
    var t := Do(s, st);
    if st.NoChildren? {
      sts, s' := [st], t;
      assert sts[1..] == [] && Leads(t, [], t);
    } else {
      var rest;
      rest, s' := PowersOff(t);
      sts := [st] + rest;
      assert sts[1..] == rest;
    }
  }

  /** A signal sends its SIGTERM to some other process than the app. */
  predicate HitsAnother(s: State, st: Step) { st.Signal? && s.pc.Reaped? && s.app in InUse(s) }

  lemma HitsStep(s: State, st: Step)
    requires Inv(s) && Can(s, st)
    ensures Do(s, st).hits == s.hits + if HitsAnother(s, st) then 1 else 0
  {
  }

  function HitsIn(ss: seq<State>, sts: seq<Step>, k: nat): nat
    requires k <= |sts| < |ss|
  {
    if k == 0 then 0 else HitsIn(ss, sts, k - 1) + if HitsAnother(ss[k - 1], sts[k - 1]) then 1 else 0
  }

  /** The SIGTERMs that reach a process that is not the app are exactly those of the signals that come after the app
      was reaped and before `APP_PID` is cleared, once its pid is in use again. */
  lemma {:induction false} HitsExactly(ss: seq<State>, sts: seq<Step>, k: nat)
    requires IsRun(ss, sts) && k < |ss|
    ensures ss[k].hits == HitsIn(ss, sts, k)
  {
    if k > 0 {
      HitsExactly(ss, sts, k - 1);
      EveryStateSound(ss, sts, k - 1);
      HitsStep(ss[k - 1], sts[k - 1]);
    }
  }

  ghost predicate Reachable(s: State) { exists ss, sts :: IsRun(ss, sts) && ss[|ss| - 1] == s }

  lemma Takes(s: State, st: Step) returns (s': State)
    requires Reachable(s) && Can(s, st)
    ensures Reachable(s') && s' == Do(s, st)
  {
    s' := Do(s, st);
    var ss, sts :| IsRun(ss, sts) && ss[|ss| - 1] == s;
    var ss', sts' := ss + [s'], sts + [st];
    forall k | 0 <= k < |sts'| ensures Can(ss'[k], sts'[k]) && Do(ss'[k], sts'[k]) == ss'[k + 1] { }
    assert IsRun(ss', sts') && ss'[|ss'| - 1] == s';
  }

  lemma Started(pid: Pid) returns (s: State)
    requires pid > 0
    ensures Reachable(s) && s == State(Reaping, pid, false, pid, false, {pid}, {}, {}, 0, {}, {}, 0)
  {
    s := Boot;
    assert IsRun([s], []);
    s := Takes(s, SetSoft);
    s := Takes(s, SetHandler);
    s := Takes(s, Listen);
    s := Takes(s, Accept);
    s := Takes(s, Fork(pid));
    s := Takes(s, Store);
    s := Takes(s, LookPending);
  }

  /** A signal comes while PID 1 waits for the host to connect: it panics, and there is never an app. */
  lemma AcceptInterrupted() returns (s: State)
    ensures Reachable(s) && s.pc.Panicked? && s.waiting == {0} && s.app == 0
  {
    s := Boot;
    assert IsRun([s], []);
    s := Takes(s, SetSoft);
    s := Takes(s, SetHandler);
    s := Takes(s, Listen);
    s := Takes(s, Signal);
  }

  /** A signal comes once Ctrl-Alt-Del no longer resets the machine and before the handler is in place: the app is
      started, and runs, and is never told. */
  lemma SignalLost(pid: Pid) returns (s: State)
    requires pid > 0
    ensures Reachable(s) && s.pc.Reaping? && s.app == pid && pid in s.running
    ensures s.sent == 1 && s.answered == {} && s.waiting == {} && !s.pending
  {
    s := Boot;
    assert IsRun([s], []);
    s := Takes(s, SetSoft);
    s := Takes(s, Signal);
    s := Takes(s, SetHandler);
    s := Takes(s, Listen);
    s := Takes(s, Accept);
    s := Takes(s, Fork(pid));
    s := Takes(s, Store);
    s := Takes(s, LookPending);
  }

  /** The app ends and is reaped, its pid is used again, and a signal that comes before `APP_PID` is cleared
      reaches the process that has it now. */
  lemma ReusedPidHit(pid: Pid, other: Pid) returns (s: State)
    requires pid > 0 && other > 0 && pid != other
    ensures Reachable(s) && s.app == pid && s.reaped && pid in s.below && s.hits == 1
  {
    s := Started(pid);
    s := Takes(s, Spawn(other));
    s := Takes(s, Ends(pid));
    s := Takes(s, ReapApp);
    s := Takes(s, Spawn(pid));
    s := Takes(s, Signal);
  }

  // --------------------------------------------------------------- the reap loop --

  datatype Wait = Child(pid: Pid) | Interrupted | NoChild

  /** Waits for children up to the first time there is none: `APP_PID` is cleared exactly when the app is among
      those reaped by then. */
  method ReapUntilNoChildren(app: Pid, waits: seq<Wait>) returns (appPid: Pid, done: bool, used: nat)
    requires app > 0
    ensures used <= |waits| && (done <==> NoChild in waits)
    ensures if done then used > 0 && waits[used - 1] == NoChild && NoChild !in waits[..used - 1] else used == |waits|
    ensures appPid == if Child(app) in waits[..used] then 0 else app
  {
    appPid, done, used := app, false, 0;
    while used < |waits| && !done
      invariant used <= |waits|
      invariant if done then used > 0 && waits[used - 1] == NoChild && NoChild !in waits[..used - 1]
                else NoChild !in waits[..used]
      invariant appPid == if Child(app) in waits[..used] then 0 else app
      decreases |waits| - used
    {
      match waits[used] {
        case Child(pid) => if pid == app { appPid := 0; }
        case Interrupted =>
        case NoChild => done := true;
      }
      assert waits[..used + 1] == waits[..used] + [waits[used]];
      used := used + 1;
    }
  }
}
