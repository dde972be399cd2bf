/** A Machine's `ssh`, what keeps one running, and the link each writes what it sees to. */
module Tunnel {
  import opened Common

  // ------------------------------------------------------------- one `ssh` --

  const HOST_KEY_FAILED := "Host key verification failed."
  const AUTHENTICATED := "Authenticated to "

  predicate SaysLoggedIn(line: string) { AUTHENTICATED <= line }

  predicate SaysKeyChanged(line: string) { line == HOST_KEY_FAILED }

  /** A line that may be why it failed; `blank` are the lines that are only white space. */
  predicate SaysWhy(line: string, blank: set<string>) {
    !SaysLoggedIn(line) && !SaysKeyChanged(line) && line !in blank &&
    !("Transferred: " <= line) && !("Bytes per second: " <= line)
  }

  datatype Ended = Ended(loggedIn: bool, keyChanged: bool, last: string)

  /** None of the lines from `k` up to `n` says why. */
  predicate NoneSays(lines: seq<string>, k: int, n: int, blank: set<string>)
    requires 0 <= k <= n <= |lines|
  {
    forall j | k <= j < n :: !SaysWhy(lines[j], blank)
  }

  /** `why` is the last of the first `n` lines that says why, or that it exited if none does. */
  ghost predicate IsWhyOf(lines: seq<string>, n: int, blank: set<string>, why: string)
    requires 0 <= n <= |lines|
  {
    || (why == "ssh exited" && NoneSays(lines, 0, n, blank))
    || exists k :: 0 <= k < n && SaysWhy(lines[k], blank) && lines[k] == why && NoneSays(lines, k + 1, n, blank)
  }

  lemma NextLine(lines: seq<string>, i: nat, blank: set<string>, why: string)
    requires i < |lines| && IsWhyOf(lines, i, blank, why)
    ensures IsWhyOf(lines, i + 1, blank, if SaysWhy(lines[i], blank) then lines[i] else why)
  {
    if SaysWhy(lines[i], blank) {
      assert NoneSays(lines, i + 1, i + 1, blank);
    } else if why == "ssh exited" && NoneSays(lines, 0, i, blank) {
      assert NoneSays(lines, 0, i + 1, blank);
    } else {
      var k :| 0 <= k < i && SaysWhy(lines[k], blank) && lines[k] == why && NoneSays(lines, k + 1, i, blank);
      assert NoneSays(lines, k + 1, i + 1, blank);
    }
  }

  lemma DifferentLines(line: string)
    ensures !(SaysLoggedIn(line) && SaysKeyChanged(line))
  {
    assert AUTHENTICATED[0] != HOST_KEY_FAILED[0];
  }

  /** Reads all one `ssh` says: whether it logged in, whether the host key was not the pinned one, and the last
      line that says why it ended. */
  method RunSsh(lines: seq<string>, blank: set<string>) returns (ended: Ended, up: bool)
    ensures ended.loggedIn <==> exists k :: 0 <= k < |lines| && SaysLoggedIn(lines[k])
    ensures ended.keyChanged <==> exists k :: 0 <= k < |lines| && SaysKeyChanged(lines[k])
    ensures IsWhyOf(lines, |lines|, blank, ended.last)
    ensures up == ended.loggedIn
  {
    ended, up := Ended(false, false, "ssh exited"), false;
    for i := 0 to |lines|
      invariant ended.loggedIn <==> exists k :: 0 <= k < i && SaysLoggedIn(lines[k])
      invariant ended.keyChanged <==> exists k :: 0 <= k < i && SaysKeyChanged(lines[k])
      invariant IsWhyOf(lines, i, blank, ended.last)
      invariant up == ended.loggedIn
    {
      var line := lines[i];
      DifferentLines(line);
      NextLine(lines, i, blank, ended.last);
      if SaysLoggedIn(line) {
        ended, up := ended.(loggedIn := true), true;
      } else if line == HOST_KEY_FAILED {
        ended := ended.(keyChanged := true);
      } else if line !in blank && !("Transferred: " <= line) && !("Bytes per second: " <= line) {
        ended := ended.(last := line);
      }
    }
  }

  // ------------------------------------------------------------- the retries --

  const RETRY_FIRST: nat := 1
  const RETRY_MAX: nat := 30

  function Pow2(n: nat): nat { if n == 0 then 1 else 2 * Pow2(n - 1) }

  /** How many times in a row it has been retried when the kth `ssh` has ended: a login starts the count again. */
  function Retry(ends: seq<Ended>, k: nat): (n: nat)
    requires k < |ends|
    ensures n > 0
  {
    if k == 0 || ends[k].loggedIn then 1 else Retry(ends, k - 1) + 1
  }

  /** What the nth retry in a row waits: each doubles the last, up to a limit. */
  function WaitOf(n: nat): nat
    requires n > 0
  {
    if n == 1 then RETRY_FIRST else Min(WaitOf(n - 1) * 2, RETRY_MAX)
  }

  /** In closed form: min(2^(n-1), 30) seconds. */
  lemma {:induction false} WaitIs(n: nat)
    requires n > 0
    ensures WaitOf(n) == Min(Pow2(n - 1), RETRY_MAX)
  {
    if n > 1 { WaitIs(n - 1); }
  }

  /** The `ssh` that the retries up to the kth are counted from: the last that logged in, or the first. */
  predicate CountsFrom(ends: seq<Ended>, j: int, k: int)
    requires 0 <= j <= k < |ends|
  {
    (j == 0 || ends[j].loggedIn) && forall i | j < i <= k :: !ends[i].loggedIn
  }

  predicate Waited(ends: seq<Ended>, k: nat, wait: nat)
    requires k < |ends|
  {
    wait == WaitOf(Retry(ends, k)) && !ends[k].keyChanged
  }

  /** In closed form. */
  predicate WaitsFrom(ends: seq<Ended>, j: int, k: int, wait: nat)
    requires k < |ends|
  {
    0 <= j <= k && CountsFrom(ends, j, k) && wait == Min(Pow2(k - j), RETRY_MAX)
  }

  lemma {:induction false} RetryIs(ends: seq<Ended>, k: nat) returns (j: nat)
    requires k < |ends|
    ensures j <= k && CountsFrom(ends, j, k) && Retry(ends, k) == k - j + 1
  {
    if k == 0 || ends[k].loggedIn { return k; }
    j := RetryIs(ends, k - 1);
  }

  lemma WaitsInAll(ends: seq<Ended>, k: nat, wait: nat)
    requires k < |ends| && Waited(ends, k, wait)
    ensures !ends[k].keyChanged && exists j :: WaitsFrom(ends, j, k, wait)
  {
    var j := RetryIs(ends, k);
    WaitIs(k - j + 1);
    assert WaitsFrom(ends, j, k, wait);
  }

  ghost predicate WaitsRight(ends: seq<Ended>, k: int, wait: nat)
    requires 0 <= k < |ends|
  {
    !ends[k].keyChanged && exists j :: WaitsFrom(ends, j, k, wait)
  }

  lemma AllWaited(ends: seq<Ended>, waits: seq<nat>)
    requires |waits| <= |ends| && forall k | 0 <= k < |waits| :: Waited(ends, k, waits[k])
    ensures forall k | 0 <= k < |waits| :: WaitsRight(ends, k, waits[k])
  {
    forall k | 0 <= k < |waits| ensures WaitsRight(ends, k, waits[k]) { WaitsInAll(ends, k, waits[k]); }
  }

  lemma NextWait(n: nat)
    requires n > 0
    ensures WaitOf(n + 1) == Min(WaitOf(n) * 2, RETRY_MAX)
  {
  }

  /** Over any series of `ssh` runs: the nth retry in a row waits min(2^(n-1), 30) seconds, a login starts the count
      again, and there is no retry after a changed host key. */
  method RunTunnel(ends: seq<Ended>) returns (waits: seq<nat>, stopped: bool)
    ensures |waits| <= |ends| && (!stopped ==> |waits| == |ends|)
    ensures forall k | 0 <= k < |waits| :: WaitsRight(ends, k, waits[k])
    ensures stopped ==> |waits| < |ends| && ends[|waits|].keyChanged
  {
    waits, stopped := [], false;
    var wait := RETRY_FIRST;
    ghost var n := 1;
    for k := 0 to |ends|
      invariant |waits| == k && n > 0 && wait == WaitOf(n)
      invariant n == if k == 0 then 1 else Retry(ends, k - 1) + 1
      invariant forall j | 0 <= j < k :: Waited(ends, j, waits[j])
    {
      if ends[k].keyChanged {
        AllWaited(ends, waits);
        return waits, true;
      }
      if ends[k].loggedIn {
        wait := RETRY_FIRST;
        n := 1;
      }
      assert Waited(ends, k, wait);
      NextWait(n);
      waits := waits + [wait];
      wait := Min(wait * 2, RETRY_MAX);
      n := n + 1;
    }
    AllWaited(ends, waits);
  }

  // ---------------------------------------------- links, one per generation --

  type Gen = nat

  datatype Link = Link(up: bool, keyChanged: bool)

  /** Where a generation's task is.  Each but `Marking` and `Over` is an `await`, where an abort ends it; those
      two it leaves for the next `await` even so. */
  datatype Task =
    | Waiting                                          // to run `ssh`, the first time or after a retry's wait
    | Reading(loggedIn: bool, keyChanged: bool)        // its `ssh` runs
    | Marking(before: bool, keyChanged: bool)          // it saw the login and marks the link up
    | Over(loggedIn: bool, keyChanged: bool)           // its `ssh` has ended and the link is to be told
    | Done                                             // the host key was not the pinned one

  datatype State = State(
    current: Option<Gen>,      // the generation the Machine's entry has, while there is a Machine
    links: map<Gen, Link>,
    tasks: map<Gen, Task>,
    aborted: set<Gen>,
    next: Gen)

  datatype Step =
    | Add
    | Remove
    | ChangeApps
    | AgentRestarts
    | Spawn(g: Gen)
    | SpawnFails(g: Gen)
    | SeesLogin(g: Gen)
    | MarksUp(g: Gen)
    | SeesKeyChanged(g: Gen)
    | Ends(g: Gen)
    | MarksDown(g: Gen)

  predicate At(s: State, g: Gen) { g in s.tasks && g !in s.aborted }

  predicate Can(s: State, st: Step) {
    match st
    case Add => s.current.None?
    case Remove => s.current.Some?
    case ChangeApps => s.current.Some? && s.current.value in s.links
    case AgentRestarts => true
    case Spawn(g) => At(s, g) && s.tasks[g].Waiting?
    case SpawnFails(g) => At(s, g) && s.tasks[g].Waiting?
    case SeesLogin(g) => At(s, g) && s.tasks[g].Reading?
    case MarksUp(g) => g in s.tasks && s.tasks[g].Marking?
    case SeesKeyChanged(g) => At(s, g) && s.tasks[g].Reading?
    case Ends(g) => At(s, g) && s.tasks[g].Reading?
    case MarksDown(g) => g in s.tasks && s.tasks[g].Over?
  }

  /** A fresh link and a task for it; whatever task there was is aborted. */
  function NewGeneration(s: State): State {
    s.(current := Some(s.next), next := s.next + 1,
       links := s.links[s.next := Link(false, false)],
       tasks := s.tasks[s.next := Waiting],
       aborted := if s.current.Some? then s.aborted + {s.current.value} else s.aborted)
  }

  function Do(s: State, st: Step): State
    requires Can(s, st)
  {
    match st
    case Add => NewGeneration(s)
    case Remove => s.(current := None, aborted := s.aborted + {s.current.value})
    case ChangeApps => if s.links[s.current.value].keyChanged then s else NewGeneration(s)
    case AgentRestarts =>
      var s' := s.(current := None, aborted := s.aborted + s.tasks.Keys, tasks := map[]);
      if s.current.Some? then NewGeneration(s') else s'
    case Spawn(g) => s.(tasks := s.tasks[g := Reading(false, false)])
    case SpawnFails(g) => s.(tasks := s.tasks[g := Over(false, false)])
    case SeesLogin(g) => s.(tasks := s.tasks[g := Marking(s.tasks[g].loggedIn, s.tasks[g].keyChanged)])
    case MarksUp(g) =>
      s.(links := s.links[g := Link(true, false)], tasks := s.tasks[g := Reading(true, s.tasks[g].keyChanged)])
    case SeesKeyChanged(g) => s.(tasks := s.tasks[g := s.tasks[g].(keyChanged := true)])
    case Ends(g) => s.(tasks := s.tasks[g := Over(s.tasks[g].loggedIn, s.tasks[g].keyChanged)])
    case MarksDown(g) =>
      s.(links := s.links[g := Link(false, s.tasks[g].keyChanged)],
         tasks := s.tasks[g := if s.tasks[g].keyChanged then Done else Waiting])
  }

  const NoMachine := State(None, map[], map[], {}, 0)

  ghost predicate IsRun(ss: seq<State>, sts: seq<Step>) {
    && |ss| == |sts| + 1 && ss[0] == NoMachine
    && forall k | 0 <= k < |sts| :: Can(ss[k], sts[k]) && Do(ss[k], sts[k]) == ss[k + 1]
  }

  /** The link says what its task has seen. */
  predicate Says(l: Link, t: Task) {
    && (l.up <==> (t.Reading? && t.loggedIn) || (t.Over? && t.loggedIn) || (t.Marking? && t.before))
    && (l.keyChanged <==> t.Done?)
  }

  ghost predicate Inv(s: State) {
    && (forall g | g in s.links || g in s.tasks || g in s.aborted :: g < s.next)
    && (forall g | g in s.tasks :: g in s.links && Says(s.links[g], s.tasks[g]))
    && (s.current.Some? ==> s.current.value in s.tasks && s.current.value !in s.aborted)
    && (forall g | g in s.tasks && g !in s.aborted :: s.current == Some(g))
  }

  lemma StepKeepsInv(s: State, st: Step)
    requires Inv(s) && Can(s, st)
    ensures Inv(Do(s, st))
  {
  }

  lemma {:induction false} EveryStateSound(ss: seq<State>, sts: seq<Step>, k: nat)
    requires IsRun(ss, sts) && k < |ss|
    ensures Inv(ss[k])
  {
    if k > 0 {
      EveryStateSound(ss, sts, k - 1);
      StepKeepsInv(ss[k - 1], sts[k - 1]);
    }
  }

  /** Up means: the current generation's `ssh` has logged in and still runs, or it has ended and the link has not been
      told so yet. */
  lemma UpMeans(ss: seq<State>, sts: seq<Step>, k: nat)
    requires IsRun(ss, sts) && k < |ss| && ss[k].current.Some?
    ensures var s := ss[k]; var g := s.current.value;
      g in s.links && g in s.tasks &&
      (s.links[g].up <==>
        (s.tasks[g].Reading? && s.tasks[g].loggedIn) || (s.tasks[g].Over? && s.tasks[g].loggedIn) ||
        (s.tasks[g].Marking? && s.tasks[g].before))
  {
    EveryStateSound(ss, sts, k);
  }

  /** A login that is seen is marked: the link then is up. */
  lemma LoginIsMarked(s: State, g: Gen)
    requires Can(s, SeesLogin(g))
    ensures Can(Do(s, SeesLogin(g)), MarksUp(g))
    ensures var s' := Do(Do(s, SeesLogin(g)), MarksUp(g)); g in s'.links && s'.links[g] == Link(true, false)
  {
  }

  /** The end of an `ssh` is marked: the link then is down, and says whether the host key was not the pinned one; the
      task runs `ssh` again exactly when it was. */
  lemma EndIsMarked(s: State, g: Gen, changed: bool)
    requires Can(s, Ends(g))
    ensures var seen := if changed then Do(s, SeesKeyChanged(g)) else s;
            && Can(seen, Ends(g)) && Can(Do(seen, Ends(g)), MarksDown(g))
            && var s' := Do(Do(seen, Ends(g)), MarksDown(g));
               && g in s'.links && s'.links[g] == Link(false, changed || s.tasks[g].keyChanged)
               && (Can(s', Spawn(g)) <==> !changed && !s.tasks[g].keyChanged)
  {
  }

  /** A Machine that is added, or whose Apps change, or whose agent restarts, gets a task of its own, and one only;
      removed, it has none. */
  lemma OneTaskRuns(s: State, st: Step, g: Gen)
    requires Inv(s) && Can(s, st) && (st.Add? || st.Remove? || st.AgentRestarts? || (st.ChangeApps? && !Latched(s)))
    ensures Do(s, st).current ==
      if st.Remove? || (st.AgentRestarts? && s.current.None?) then None else Some(s.next)
    ensures Can(Do(s, st), Spawn(g)) <==> Do(s, st).current == Some(g)
  {
  }

  predicate Latched(s: State) {
    s.current.Some? && s.current.value in s.links && s.links[s.current.value].keyChanged
  }

  /** From a state where the current link records a changed host key, no `ssh` starts, and the link stays the
      current one and keeps saying so, whatever else happens short of a removal or a new agent. */
  lemma LatchHolds(s: State, st: Step)
    requires Inv(s) && Latched(s) && Can(s, st)
    ensures !st.Spawn? && !st.SpawnFails?
    ensures (Latched(Do(s, st)) && Do(s, st).current == s.current) <==> !st.Remove? && !st.AgentRestarts?
  {
  }

  /** Over a whole run: once latched, no `ssh` is started until the Machine is removed or the agent restarts. */
  lemma {:induction false} NoSshOnceLatched(ss: seq<State>, sts: seq<Step>, i: nat, j: nat)
    requires IsRun(ss, sts) && i <= j < |sts| && Latched(ss[i])
    requires forall k | i <= k < j :: !sts[k].Remove? && !sts[k].AgentRestarts?
    ensures Latched(ss[j]) && ss[j].current == ss[i].current && !sts[j].Spawn? && !sts[j].SpawnFails?
  {
    EveryStateSound(ss, sts, j);
    if i < j {
      NoSshOnceLatched(ss, sts, i, j - 1);
      EveryStateSound(ss, sts, j - 1);
      LatchHolds(ss[j - 1], sts[j - 1]);
    }
    LatchHolds(ss[j], sts[j]);
  }

  ghost predicate Reachable(s: State) { exists ss, sts :: IsRun(ss, sts) && ss[|ss| - 1] == s }

  lemma Takes(s: State, st: Step) returns (s': State)
    requires Reachable(s) && Can(s, st)
    ensures Reachable(s') && s' == Do(s, st)
  {
    s' := Do(s, st);
    var ss, sts :| IsRun(ss, sts) && ss[|ss| - 1] == s;
    var ss', sts' := ss + [s'], sts + [st];
    forall k | 0 <= k < |sts'| ensures Can(ss'[k], sts'[k]) && Do(ss'[k], sts'[k]) == ss'[k + 1] { }
    assert IsRun(ss', sts') && ss'[|ss'| - 1] == s';
  }

  /** The latch is the agent's memory only: one that restarts runs `ssh` again to a Machine whose host key had
      changed, without its having been removed and added. */
  lemma RestartForgetsLatch() returns (s: State, g: Gen)
    ensures Reachable(s) && Latched(s)
    ensures Do(s, AgentRestarts).current == Some(g) && Can(Do(s, AgentRestarts), Spawn(g))
  {
    s, g := NoMachine, 1;
    assert IsRun([s], []);
    s := Takes(s, Add);
    s := Takes(s, Spawn(0));
    s := Takes(s, SeesKeyChanged(0));
    s := Takes(s, Ends(0));
    s := Takes(s, MarksDown(0));
  }

  /** An old generation's task never changes what the current link says. */
  lemma OldGenerationHarmless(s: State, st: Step)
    requires Inv(s) && Can(s, st) && s.current.Some? && (st.MarksUp? || st.MarksDown?) && s.current != Some(st.g)
    ensures s.current.value in s.links && Do(s, st).links[s.current.value] == s.links[s.current.value]
  {
  }
}
