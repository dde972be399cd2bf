/** One App's idle park: the traffic record of each VM that has run it, the requests the edge proxies to
    it, the idle parker and the parks it and the API start.

    A request takes the VM table's lock to arrive but drops without it, in three steps: it reads the clock,
    writes `last`, then lowers the count.  The parker's look takes two: the count, then `last`. */
module Traffic {
  import opened Common

  type Inst = nat
  type Req = nat
  type Park = nat
  type Time = nat

  /** The edge's requests to one running VM. */
  datatype Record = Record(inFlight: nat, last: Time, parking: bool)

  datatype Flight =
    | Proxying(inst: Inst)
    | Stamped(inst: Inst, at: Time)  // dropped: the clock is read, `last` not written
    | Written(inst: Inst)            // `last` is written, the count not lowered

  /** The idle parker's look at the App, under the VM table's lock. */
  datatype Scan = Off | Scanning | SawZero(inst: Inst)

  datatype Parking =
    | Claimed(inst: Inst, idle: bool)
    | Sent(inst: Inst, idle: bool, to: Inst)  // the park went to the VM running when it was sent
    | Owing(inst: Inst)                       // an idle park failed and let go; `last` is still to be set
    | Stamping(inst: Inst, at: Time)
  {
    predicate Claims() { Claimed? || Sent? }
    predicate Idles() { Claims() && idle }
  }

  datatype State = State(
    now: Time,
    idleTime: Time,
    running: Option<Inst>,
    traffic: map<Inst, Record>,
    reqs: map<Req, Flight>,
    scan: Scan,
    parks: map<Park, Parking>,
    nextInst: Inst,
    nextPark: Park,
    finished: map<Inst, Time>,  // history: when a request to it last finished, or it started
    failed: map<Inst, Time>)    // history: when an idle park of it last failed

  datatype Step =
    | Tick(t: Time)
    | Start
    | End
    | Arrive(r: Req)
    | Stamp(r: Req)
    | Write(r: Req)
    | Leave(r: Req)
    | ScanBegin
    | ScanCount
    | ScanClaim
    | ScanEnd
    | Claim
    | Send(p: Park)
    | Release(p: Park, ok: bool)
    | ReadClock(p: Park)
    | WriteFailed(p: Park)

  predicate Can(s: State, st: Step) {
    match st
    case Tick(t) => s.now <= t
    case Start => s.scan.Off? && s.running.None?
    case End => s.scan.Off? && s.running.Some?
    case Arrive(r) =>
      && s.scan.Off? && s.running.Some? && s.running.value in s.traffic
      && !s.traffic[s.running.value].parking && r !in s.reqs
    case Stamp(r) => r in s.reqs && s.reqs[r].Proxying?
    case Write(r) => r in s.reqs && s.reqs[r].Stamped? && s.reqs[r].inst in s.traffic
    case Leave(r) => r in s.reqs && s.reqs[r].Written? && s.reqs[r].inst in s.traffic
    case ScanBegin => s.scan.Off?
    case ScanCount =>
      s.scan.Scanning? && s.running.Some? && s.running.value in s.traffic && s.traffic[s.running.value].inFlight == 0
    case ScanClaim =>
      && s.scan.SawZero? && s.scan.inst in s.traffic
      && s.traffic[s.scan.inst].last + s.idleTime <= s.now && !s.traffic[s.scan.inst].parking
    case ScanEnd => !s.scan.Off?
    case Claim =>
      s.scan.Off? && s.running.Some? && s.running.value in s.traffic && !s.traffic[s.running.value].parking
    case Send(p) => s.scan.Off? && p in s.parks && s.parks[p].Claimed? && s.running.Some?
    case Release(p, ok) => p in s.parks && (s.parks[p].Claimed? || s.parks[p].Sent?) && s.parks[p].inst in s.traffic
    case ReadClock(p) => p in s.parks && s.parks[p].Owing?
    case WriteFailed(p) => p in s.parks && s.parks[p].Stamping? && s.parks[p].inst in s.traffic
  }

  function WithLast(s: State, i: Inst, at: Time): State
    requires i in s.traffic
  {
    s.(traffic := s.traffic[i := s.traffic[i].(last := at)])
  }

  function WithParking(s: State, i: Inst, parking: bool): State
    requires i in s.traffic
  {
    s.(traffic := s.traffic[i := s.traffic[i].(parking := parking)])
  }

  function TakeClaim(s: State, i: Inst, idle: bool): State
    requires i in s.traffic
  {
    WithParking(s, i, true).(parks := s.parks[s.nextPark := Claimed(i, idle)], nextPark := s.nextPark + 1)
  }

  function Do(s: State, st: Step): State
    requires Can(s, st)
  {
    match st
    case Tick(t) => s.(now := t)
    case Start =>
      s.(running := Some(s.nextInst), nextInst := s.nextInst + 1,
         traffic := s.traffic[s.nextInst := Record(0, s.now, false)],
         finished := s.finished[s.nextInst := s.now])
    case End => s.(running := None)
    case Arrive(r) =>
      var i := s.running.value;
      s.(traffic := s.traffic[i := s.traffic[i].(inFlight := s.traffic[i].inFlight + 1)],
         reqs := s.reqs[r := Proxying(i)])
    case Stamp(r) =>
      var i := s.reqs[r].inst;
      s.(reqs := s.reqs[r := Stamped(i, s.now)], finished := s.finished[i := s.now])
    case Write(r) =>
      WithLast(s, s.reqs[r].inst, s.reqs[r].at).(reqs := s.reqs[r := Written(s.reqs[r].inst)])
    case Leave(r) =>
      var i := s.reqs[r].inst;
      s.(traffic := s.traffic[i := s.traffic[i].(inFlight := if s.traffic[i].inFlight == 0 then 0 else s.traffic[i].inFlight - 1)],
         reqs := s.reqs - {r})
    case ScanBegin => s.(scan := Scanning)
    case ScanCount => s.(scan := SawZero(s.running.value))
    case ScanClaim => TakeClaim(s, s.scan.inst, true).(scan := Off)
    case ScanEnd => s.(scan := Off)
    case Claim => TakeClaim(s, s.running.value, false)
    case Send(p) => s.(parks := s.parks[p := Sent(s.parks[p].inst, s.parks[p].idle, s.running.value)])
    case Release(p, ok) =>
      var i := s.parks[p].inst;
      var s' := WithParking(s, i, false);
      if s.parks[p].idle && !ok then s'.(parks := s.parks[p := Owing(i)], failed := s.failed[i := s.now])
      else s'.(parks := s.parks - {p})
    case ReadClock(p) => s.(parks := s.parks[p := Stamping(s.parks[p].inst, s.now)])
    case WriteFailed(p) => WithLast(s, s.parks[p].inst, s.parks[p].at).(parks := s.parks - {p})
  }

  function NewApp(idleTime: Time): State {
    State(0, idleTime, None, map[], map[], Off, map[], 0, 0, map[], map[])
  }

  ghost predicate IsRun(ss: seq<State>, sts: seq<Step>) {
    && |ss| == |sts| + 1
    && ss[0] == NewApp(ss[0].idleTime)
    && forall k | 0 <= k < |sts| :: Can(ss[k], sts[k]) && Do(ss[k], sts[k]) == ss[k + 1]
  }

  // ------------------------------------------------------------ invariant --

  function On(reqs: map<Req, Flight>, i: Inst): set<Req> { set r | r in reqs && reqs[r].inst == i }

  ghost predicate Counted(s: State) {
    && (forall r | r in s.reqs :: s.reqs[r].inst in s.traffic)
    && (forall i | i in s.traffic :: s.traffic[i].inFlight == |On(s.reqs, i)|)
  }

  /** `parking` is set for every VM some park claims, and by one park at a time. */
  ghost predicate Exclusive(s: State) {
    && (forall p | p in s.parks :: p < s.nextPark && s.parks[p].inst in s.traffic)
    && (forall p | p in s.parks && s.parks[p].Claims() :: s.traffic[s.parks[p].inst].parking)
    && (forall p, q | p in s.parks && q in s.parks && s.parks[p].Claims() && s.parks[q].Claims() &&
          s.parks[p].inst == s.parks[q].inst :: p == q)
  }

  /** What the parker saw stays so until it lets go of the lock, and once it has claimed, until it lets go of that. */
  ghost predicate Quiet(s: State) {
    && (s.running.Some? ==> s.running.value in s.traffic)
    && (s.scan.SawZero? ==> s.running == Some(s.scan.inst) && On(s.reqs, s.scan.inst) == {})
    && (forall p | p in s.parks && s.parks[p].Idles() :: On(s.reqs, s.parks[p].inst) == {})
  }

  ghost predicate Fresh(s: State) {
    && (forall i | i in s.traffic :: i < s.nextInst)
    && s.finished.Keys == s.traffic.Keys && s.failed.Keys <= s.traffic.Keys
  }

  ghost predicate Inv(s: State) { Fresh(s) && Counted(s) && Exclusive(s) && Quiet(s) }

  lemma OnWith(reqs: map<Req, Flight>, r: Req, f: Flight, i: Inst)
    ensures On(reqs[r := f], i) == On(reqs, i) - {r} + (if f.inst == i then {r} else {})
    ensures On(reqs - {r}, i) == On(reqs, i) - {r}
  {
  }

  /** The requests to `i` after a step. */
  lemma OnAfter(s: State, st: Step, i: Inst)
    requires Can(s, st)
    ensures On(Do(s, st).reqs, i) ==
      if st.Arrive? && s.running.value == i then On(s.reqs, i) + {st.r}
      else if st.Leave? && s.reqs[st.r].inst == i then On(s.reqs, i) - {st.r}
      else On(s.reqs, i)
  {
    var s' := Do(s, st);
    if st.Arrive? || st.Stamp? || st.Write? { OnWith(s.reqs, st.r, s'.reqs[st.r], i); }
    if st.Leave? { OnWith(s.reqs, st.r, s.reqs[st.r], i); }
  }

  lemma FreshKept(s: State, st: Step)
    requires Fresh(s) && Can(s, st) && (st.Stamp? ==> s.reqs[st.r].inst in s.traffic)
    ensures Fresh(Do(s, st))
  {
  }

  lemma CountAt(s: State, st: Step, i: Inst)
    requires Can(s, st) && i in Do(s, st).traffic && s.nextInst !in s.traffic
    requires i in s.traffic ==> s.traffic[i].inFlight == |On(s.reqs, i)|
    requires i !in s.traffic ==> On(s.reqs, i) == {}
    ensures Do(s, st).traffic[i].inFlight == |On(Do(s, st).reqs, i)|
  {
    OnAfter(s, st, i);
    if st.Leave? { assert st.r in On(s.reqs, s.reqs[st.r].inst); }
  }

  lemma CountedKept(s: State, st: Step)
    requires Fresh(s) && Counted(s) && Can(s, st)
    ensures Counted(Do(s, st))
  {
    forall i | i in Do(s, st).traffic ensures Do(s, st).traffic[i].inFlight == |On(Do(s, st).reqs, i)| {
      if i !in s.traffic { assert On(s.reqs, i) == {}; }
      CountAt(s, st, i);
    }
  }

  /** A park's claim, before and after a step. */
  lemma ClaimAt(s: State, st: Step, p: Park)
    requires Can(s, st) && s.nextInst !in s.traffic && p in Do(s, st).parks
    requires s.running.Some? ==> s.running.value in s.traffic
    requires p in s.parks ==> s.parks[p].inst in s.traffic && p < s.nextPark
    requires p in s.parks && s.parks[p].Claims() ==> s.traffic[s.parks[p].inst].parking
    requires st.Release? && p in s.parks && s.parks[p].Claims() && s.parks[p].inst == s.parks[st.p].inst ==> p == st.p
    ensures p < Do(s, st).nextPark && Do(s, st).parks[p].inst in Do(s, st).traffic
    ensures Do(s, st).parks[p].Claims() ==>
      && Do(s, st).traffic[Do(s, st).parks[p].inst].parking
      && if p in s.parks then s.parks[p].Claims() && s.parks[p].inst == Do(s, st).parks[p].inst
         else p == s.nextPark && !s.traffic[Do(s, st).parks[p].inst].parking
  {
  }

  lemma ExclusiveKept(s: State, st: Step)
    requires Fresh(s) && Exclusive(s) && (s.running.Some? ==> s.running.value in s.traffic) && Can(s, st)
    ensures Exclusive(Do(s, st))
  {
    var s' := Do(s, st);
    forall p | p in s'.parks { ClaimAt(s, st, p); }
  }

  lemma QuietKept(s: State, st: Step)
    requires Inv(s) && Can(s, st)
    ensures Quiet(Do(s, st))
  {
    var s' := Do(s, st);
    forall p | p in s'.parks && s'.parks[p].Idles() ensures On(s'.reqs, s'.parks[p].inst) == {} {
      OnAfter(s, st, s'.parks[p].inst);
    }
    if s'.scan.SawZero? { OnAfter(s, st, s'.scan.inst); }
  }

  lemma StepKeepsInv(s: State, st: Step)
    requires Inv(s) && Can(s, st)
    ensures Inv(Do(s, st))
  {
    FreshKept(s, st);
    CountedKept(s, st);
    ExclusiveKept(s, st);
    QuietKept(s, st);
  }

  lemma {:induction false} EveryStateSound(ss: seq<State>, sts: seq<Step>, k: nat)
    requires IsRun(ss, sts) && k < |ss|
    ensures Inv(ss[k])
  {
    if k > 0 {
      EveryStateSound(ss, sts, k - 1);
      StepKeepsInv(ss[k - 1], sts[k - 1]);
    }
  }

  // ------------------------------------------------------------- theorems --

  /** From when the idle parker claims a VM until the claim is released, no request is in flight to it. */
  lemma NoneInFlight(ss: seq<State>, sts: seq<Step>, k: nat, p: Park)
    requires IsRun(ss, sts) && k < |ss| && p in ss[k].parks && ss[k].parks[p].Idles()
    ensures forall r | r in ss[k].reqs :: ss[k].reqs[r].inst != ss[k].parks[p].inst
  {
    EveryStateSound(ss, sts, k);
    forall r | r in ss[k].reqs ensures ss[k].reqs[r].inst != ss[k].parks[p].inst {
      assert r in On(ss[k].reqs, ss[k].reqs[r].inst);
    }
  }

  /** Each VM is claimed by at most one park at a time, the API's or the idle parker's. */
  lemma OneParkAtATime(ss: seq<State>, sts: seq<Step>, k: nat, p: Park, q: Park)
    requires IsRun(ss, sts) && k < |ss| && p in ss[k].parks && q in ss[k].parks
    requires ss[k].parks[p].Claims() && ss[k].parks[q].Claims() && ss[k].parks[p].inst == ss[k].parks[q].inst
    ensures p == q
  {
    EveryStateSound(ss, sts, k);
  }

  /** The parker's look lets go of the VM table when it is over, and changes nothing by itself but what it claims. */
  lemma LookLetsGo(s: State, st: Step)
    requires Can(s, st) && (st.ScanEnd? || st.ScanClaim?)
    ensures Do(s, st).scan.Off? && Do(s, st).reqs == s.reqs && Do(s, st).running == s.running
    ensures st.ScanEnd? ==> Do(s, st) == s.(scan := Off)
    ensures st.ScanClaim? ==> Do(s, st).traffic == s.traffic[s.scan.inst := s.traffic[s.scan.inst].(parking := true)]
  {
  }

  /** Some park claims `i`. */
  ghost predicate IsClaimed(s: State, i: Inst) { exists p :: ClaimsIt(s, p, i) }

  predicate ClaimsIt(s: State, p: Park, i: Inst) { p in s.parks && s.parks[p].Claims() && s.parks[p].inst == i }

  lemma ClaimKept(s: State, st: Step, p: Park, i: Inst)
    requires Can(s, st) && ClaimsIt(s, p, i) && p != s.nextPark && i in Do(s, st).traffic && Do(s, st).traffic[i].parking
    ensures ClaimsIt(Do(s, st), p, i)
  {
  }

  lemma FlagSet(s: State, st: Step, i: Inst)
    requires Can(s, st) && i in Do(s, st).traffic && Do(s, st).traffic[i].parking
    requires i in s.traffic ==> !s.traffic[i].parking
    ensures ClaimsIt(Do(s, st), s.nextPark, i)
  {
  }

  lemma FlagStep(s: State, st: Step, i: Inst)
    requires Inv(s) && Can(s, st) && i in Do(s, st).traffic && Do(s, st).traffic[i].parking
    requires i in s.traffic && s.traffic[i].parking ==> IsClaimed(s, i)
    ensures IsClaimed(Do(s, st), i)
  {
    if i in s.traffic && s.traffic[i].parking {
      var p :| ClaimsIt(s, p, i);
      ClaimKept(s, st, p, i);
    } else {
      FlagSet(s, st, i);
    }
  }

  lemma {:induction false} FlagIsClaim(ss: seq<State>, sts: seq<Step>, k: nat, i: Inst)
    requires IsRun(ss, sts) && k < |ss| && i in ss[k].traffic && ss[k].traffic[i].parking
    ensures IsClaimed(ss[k], i)
  {
    if k > 0 {
      EveryStateSound(ss, sts, k - 1);
      if i in ss[k - 1].traffic && ss[k - 1].traffic[i].parking { FlagIsClaim(ss, sts, k - 1, i); }
      FlagStep(ss[k - 1], sts[k - 1], i);
    }
  }

  /** A VM takes no request, and no other park, exactly as long as some park claims it. */
  lemma ParkingExactly(ss: seq<State>, sts: seq<Step>, k: nat, i: Inst)
    requires IsRun(ss, sts) && k < |ss| && i in ss[k].traffic
    ensures ss[k].traffic[i].parking <==> IsClaimed(ss[k], i)
  {
    EveryStateSound(ss, sts, k);
    if ss[k].traffic[i].parking { FlagIsClaim(ss, sts, k, i); }
  }

  // ------------------------------------------------------------- idle time --

  /** No write to `last` puts it back: the drops, and a failed park's write, come in the order of their clocks. */
  predicate InOrder(s: State, st: Step)
    requires Can(s, st)
  {
    && (st.Write? ==> s.traffic[s.reqs[st.r].inst].last <= s.reqs[st.r].at)
    && (st.WriteFailed? ==> s.traffic[s.parks[st.p].inst].last <= s.parks[st.p].at)
  }

  ghost predicate WrittenInOrder(ss: seq<State>, sts: seq<Step>)
    requires IsRun(ss, sts)
  {
    forall k | 0 <= k < |sts| :: InOrder(ss[k], sts[k])
  }

  /** An idle park of `i` has failed and has not set `last` yet. */
  predicate Owed(s: State, i: Inst)
    requires i in s.failed
  {
    exists p :: p in s.parks && s.parks[p].inst == i &&
      (s.parks[p].Owing? || (s.parks[p].Stamping? && s.failed[i] <= s.parks[p].at))
  }

  ghost predicate FinishTimed(s: State, i: Inst)
    requires i in s.traffic && i in s.finished
  {
    s.finished[i] <= s.traffic[i].last || exists r :: r in s.reqs && s.reqs[r] == Stamped(i, s.finished[i])
  }

  ghost predicate FailureTimed(s: State, i: Inst)
    requires i in s.traffic && i in s.failed
  {
    s.failed[i] <= s.now && (s.failed[i] <= s.traffic[i].last || Owed(s, i))
  }

  ghost predicate Timed(s: State)
    requires Fresh(s)
  {
    && (forall i | i in s.traffic :: FinishTimed(s, i))
    && (forall i | i in s.failed :: FailureTimed(s, i))
  }

  lemma FinishTimedKept(s: State, st: Step, i: Inst)
    requires Can(s, st) && InOrder(s, st) && s.nextInst !in s.traffic && s.finished.Keys == s.traffic.Keys
    requires i in s.traffic ==> FinishTimed(s, i)
    requires i in Do(s, st).traffic && i in Do(s, st).finished
    ensures FinishTimed(Do(s, st), i)
  {
    var s' := Do(s, st);
    if i in s.traffic && s.traffic[i].last < s.finished[i] {
      var r :| r in s.reqs && s.reqs[r] == Stamped(i, s.finished[i]);
      if !(st.Write? && st.r == r) && !(st.Stamp? && s.reqs[st.r].inst == i) {
        assert r in s'.reqs && s'.reqs[r] == s.reqs[r];
      }
    }
    if st.Stamp? && s.reqs[st.r].inst == i { assert s'.reqs[st.r] == Stamped(i, s'.finished[i]); }
  }

  lemma FailureTimedKept(s: State, st: Step, i: Inst)
    requires Can(s, st) && InOrder(s, st) && s.nextInst !in s.traffic && s.failed.Keys <= s.traffic.Keys
    requires s.nextPark !in s.parks
    requires i in s.failed ==> FailureTimed(s, i)
    requires i in Do(s, st).traffic && i in Do(s, st).failed
    ensures FailureTimed(Do(s, st), i)
  {
    var s' := Do(s, st);
    if st.Release? && s.parks[st.p].inst == i && s'.failed != s.failed {
      assert s'.parks[st.p].Owing?;
    } else if i in s.failed && s.traffic[i].last < s.failed[i] {
      var p :| p in s.parks && s.parks[p].inst == i &&
        (s.parks[p].Owing? || (s.parks[p].Stamping? && s.failed[i] <= s.parks[p].at));
      if !(st.WriteFailed? && st.p == p) { assert p in s'.parks; }
    }
  }

  lemma StepKeepsTimed(s: State, st: Step)
    requires Inv(s) && Timed(s) && Can(s, st) && InOrder(s, st)
    ensures Fresh(Do(s, st)) && Timed(Do(s, st))
  {
    var s' := Do(s, st);
    FreshKept(s, st);
    forall i | i in s'.traffic ensures FinishTimed(s', i) { FinishTimedKept(s, st, i); }
    forall i | i in s'.failed ensures FailureTimed(s', i) { FailureTimedKept(s, st, i); }
  }

  lemma {:induction false} EveryStateTimed(ss: seq<State>, sts: seq<Step>, k: nat)
    requires IsRun(ss, sts) && WrittenInOrder(ss, sts) && k < |ss|
    ensures Inv(ss[k]) && Timed(ss[k])
  {
    EveryStateSound(ss, sts, k);
    if k > 0 {
      EveryStateTimed(ss, sts, k - 1);
      StepKeepsTimed(ss[k - 1], sts[k - 1]);
    }
  }

  // What a run has done, read off its steps.

  function FinishAfter(s: State, st: Step, i: Inst, was: Time): Time {
    if (st.Stamp? && st.r in s.reqs && s.reqs[st.r].inst == i) || (st.Start? && s.nextInst == i) then s.now else was
  }

  /** When `i` started, or a request to it last read the clock as it finished. */
  function LastFinish(ss: seq<State>, sts: seq<Step>, k: nat, i: Inst): Time
    requires k <= |sts| && |ss| == |sts| + 1
  {
    if k == 0 then 0 else FinishAfter(ss[k - 1], sts[k - 1], i, LastFinish(ss, sts, k - 1, i))
  }

  function NoteAfter(s: State, st: Step, i: Inst, was: Option<Time>): Option<Time> {
    if st.WriteFailed? && st.p in s.parks && s.parks[st.p].Stamping? && s.parks[st.p].inst == i
    then Some(s.parks[st.p].at) else was
  }

  /** The clock that the last write of a failed park to `i` carried. */
  function LastNoted(ss: seq<State>, sts: seq<Step>, k: nat, i: Inst): Option<Time>
    requires k <= |sts| && |ss| == |sts| + 1
  {
    if k == 0 then None else NoteAfter(ss[k - 1], sts[k - 1], i, LastNoted(ss, sts, k - 1, i))
  }

  function WriteAfter(s: State, st: Step, i: Inst, was: Time): Time {
    if st.Write? && st.r in s.reqs && s.reqs[st.r].Stamped? && s.reqs[st.r].inst == i then s.reqs[st.r].at
    else if st.Start? && s.nextInst == i then s.now
    else match NoteAfter(s, st, i, None) case Some(t) => t case None => was
  }

  /** The clock that the last write to the `last` of `i` carried. */
  function LastWrite(ss: seq<State>, sts: seq<Step>, k: nat, i: Inst): Time
    requires k <= |sts| && |ss| == |sts| + 1
  {
    if k == 0 then 0 else WriteAfter(ss[k - 1], sts[k - 1], i, LastWrite(ss, sts, k - 1, i))
  }

  function FailureAfter(s: State, st: Step, i: Inst, was: Option<Time>): Option<Time> {
    if st.Release? && !st.ok && st.p in s.parks && s.parks[st.p].Idles() && s.parks[st.p].inst == i then Some(s.now)
    else was
  }

  /** When an idle park of `i` last failed and let go. */
  function LastFailure(ss: seq<State>, sts: seq<Step>, k: nat, i: Inst): Option<Time>
    requires k <= |sts| && |ss| == |sts| + 1
  {
    if k == 0 then None else FailureAfter(ss[k - 1], sts[k - 1], i, LastFailure(ss, sts, k - 1, i))
  }

  function FailedAt(s: State, i: Inst): Option<Time> { if i in s.failed then Some(s.failed[i]) else None }

  lemma StepOf(ss: seq<State>, sts: seq<Step>, k: nat)
    requires IsRun(ss, sts) && k < |sts|
    ensures Inv(ss[k]) && Inv(ss[k + 1]) && Can(ss[k], sts[k]) && ss[k + 1] == Do(ss[k], sts[k])
  {
    EveryStateSound(ss, sts, k);
    EveryStateSound(ss, sts, k + 1);
  }

  /** What a step does to the history of a VM that has been there. */
  lemma HistoryStep(s: State, st: Step, i: Inst)
    requires Can(s, st) && Fresh(s) && i in s.traffic
    ensures var s' := Do(s, st);
            && i in s'.traffic && i in s.finished && i in s'.finished
            && s'.finished[i] == FinishAfter(s, st, i, s.finished[i])
            && s'.traffic[i].last == WriteAfter(s, st, i, s.traffic[i].last)
  {
  }

  lemma FailureStep(s: State, st: Step, i: Inst)
    requires Can(s, st)
    ensures FailedAt(Do(s, st), i) == FailureAfter(s, st, i, FailedAt(s, i))
  {
  }

  lemma HistoryBegins(s: State, st: Step, i: Inst, finish: Time, write: Time)
    requires Can(s, st) && Inv(s) && i !in s.traffic
    ensures FailureAfter(s, st, i, None) == None && NoteAfter(s, st, i, None) == None
    ensures var s' := Do(s, st); i in s'.traffic ==>
              i in s'.finished && i !in s'.failed && s'.finished[i] == s.now == s'.traffic[i].last &&
              FinishAfter(s, st, i, finish) == s.now == WriteAfter(s, st, i, write)
  {
  }

  lemma TrafficGrows(s: State, st: Step, i: Inst)
    requires Can(s, st) && i in s.traffic
    ensures i in Do(s, st).traffic
  {
  }

  lemma {:induction false} NoFailureYet(ss: seq<State>, sts: seq<Step>, k: nat, i: Inst)
    requires IsRun(ss, sts) && k < |ss| && i !in ss[k].traffic
    ensures LastFailure(ss, sts, k, i) == None && LastNoted(ss, sts, k, i) == None
  {
    if k > 0 {
      StepOf(ss, sts, k - 1);
      if i in ss[k - 1].traffic { TrafficGrows(ss[k - 1], sts[k - 1], i); }
      NoFailureYet(ss, sts, k - 1, i);
      HistoryBegins(ss[k - 1], sts[k - 1], i, 0, 0);
    }
  }

  lemma {:induction false} HistoryIs(ss: seq<State>, sts: seq<Step>, k: nat, i: Inst)
    requires IsRun(ss, sts) && k < |ss| && i in ss[k].traffic
    ensures i in ss[k].finished && ss[k].finished[i] == LastFinish(ss, sts, k, i)
    ensures ss[k].traffic[i].last == LastWrite(ss, sts, k, i)
    ensures LastFailure(ss, sts, k, i) == FailedAt(ss[k], i)
  {
    if k > 0 {
      StepOf(ss, sts, k - 1);
      if i in ss[k - 1].traffic {
        HistoryIs(ss, sts, k - 1, i);
        HistoryStep(ss[k - 1], sts[k - 1], i);
        FailureStep(ss[k - 1], sts[k - 1], i);
      } else {
        NoFailureYet(ss, sts, k - 1, i);
        HistoryBegins(ss[k - 1], sts[k - 1], i, LastFinish(ss, sts, k - 1, i), LastWrite(ss, sts, k - 1, i));
      }
    }
  }

  /** When every write to `last` comes in order, a VM the idle parker claims has had no request finish
      within its idle time, and no failed park within it either unless that park still owes its write. */
  lemma ClaimedAfterIdleTime(ss: seq<State>, sts: seq<Step>, k: nat)
    requires IsRun(ss, sts) && WrittenInOrder(ss, sts) && k < |sts| && sts[k].ScanClaim?
    ensures
      var s := ss[k];
      var i, failure := s.scan.inst, LastFailure(ss, sts, k, s.scan.inst);
      && LastFinish(ss, sts, k, i) + s.idleTime <= s.now
      && (failure.Some? && !(i in s.failed && Owed(s, i)) ==> failure.value + s.idleTime <= s.now)
  {
    EveryStateTimed(ss, sts, k);
    var s := ss[k];
    var i := s.scan.inst;
    HistoryIs(ss, sts, k, i);
    assert FinishTimed(s, i);
    forall r | r in s.reqs ensures s.reqs[r].inst != i { assert r in On(s.reqs, s.reqs[r].inst); }
    if i in s.failed { assert FailureTimed(s, i); }
  }

  /** Whoever wrote `last`, it is no later than the last finish and the last failed park's note. */
  ghost predicate NotAhead(s: State, i: Inst, noted: Option<Time>)
    requires i in s.traffic && i in s.finished
  {
    && s.finished[i] <= s.now && (forall r | r in s.reqs && s.reqs[r].Stamped? && s.reqs[r].inst == i :: s.reqs[r].at <= s.finished[i])
    && (s.traffic[i].last <= s.finished[i] || (noted.Some? && s.traffic[i].last <= noted.value))
  }

  lemma NotAheadKept(s: State, st: Step, i: Inst, noted: Option<Time>)
    requires Can(s, st) && Fresh(s) && i in s.traffic && i in s.finished && NotAhead(s, i, noted)
    requires i in Do(s, st).traffic && i in Do(s, st).finished
    ensures NotAhead(Do(s, st), i, NoteAfter(s, st, i, noted))
  {
    HistoryStep(s, st, i);
  }

  lemma NotAheadBegins(s: State, st: Step, i: Inst)
    requires Inv(s) && Can(s, st) && i !in s.traffic && i in Do(s, st).traffic
    ensures i in Do(s, st).finished && NotAhead(Do(s, st), i, None)
  {
    assert st.Start? && i == s.nextInst;
    assert Do(s, st).reqs == s.reqs;
  }

  ghost predicate NotAheadAt(s: State, i: Inst, noted: Option<Time>) {
    i in s.traffic ==> i in s.finished && NotAhead(s, i, noted)
  }

  lemma NotAheadNext(s: State, st: Step, i: Inst, noted: Option<Time>)
    requires Inv(s) && Can(s, st) && NotAheadAt(s, i, noted) && (i !in s.traffic ==> noted == None)
    ensures NotAheadAt(Do(s, st), i, NoteAfter(s, st, i, noted))
  {
    if i in s.traffic {
      HistoryStep(s, st, i);
      NotAheadKept(s, st, i, noted);
    } else {
      HistoryBegins(s, st, i, 0, 0);
      if i in Do(s, st).traffic { NotAheadBegins(s, st, i); }
    }
  }

  lemma {:induction false} EveryStateNotAhead(ss: seq<State>, sts: seq<Step>, k: nat, i: Inst)
    requires IsRun(ss, sts) && k < |ss|
    ensures NotAheadAt(ss[k], i, LastNoted(ss, sts, k, i))
  {
    if k > 0 {
      EveryStateNotAhead(ss, sts, k - 1, i);
      EveryStateSound(ss, sts, k - 1);
      if i !in ss[k - 1].traffic { NoFailureYet(ss, sts, k - 1, i); }
      NotAheadNext(ss[k - 1], sts[k - 1], i, LastNoted(ss, sts, k - 1, i));
    }
  }

  lemma NotedKept(s: State, st: Step, i: Inst, noted: Option<Time>)
    requires Can(s, st) && Fresh(s) && i in s.traffic && InOrder(s, st)
    requires noted.Some? ==> noted.value <= s.traffic[i].last
    requires i in Do(s, st).traffic
    ensures NoteAfter(s, st, i, noted).Some? ==> NoteAfter(s, st, i, noted).value <= Do(s, st).traffic[i].last
  {
    HistoryStep(s, st, i);
  }

  lemma {:induction false} NotedIsIn(ss: seq<State>, sts: seq<Step>, k: nat, i: Inst)
    requires IsRun(ss, sts) && WrittenInOrder(ss, sts) && k < |ss| && i in ss[k].traffic
    ensures LastNoted(ss, sts, k, i).Some? ==> LastNoted(ss, sts, k, i).value <= ss[k].traffic[i].last
  {
    if k > 0 {
      StepOf(ss, sts, k - 1);
      if i in ss[k - 1].traffic {
        NotedIsIn(ss, sts, k - 1, i);
        NotedKept(ss[k - 1], sts[k - 1], i, LastNoted(ss, sts, k - 1, i));
      } else {
        NoFailureYet(ss, sts, k - 1, i);
        HistoryBegins(ss[k - 1], sts[k - 1], i, 0, 0);
      }
    }
  }

  lemma ClaimsWhen(s: State, noted: Option<Time>)
    requires Inv(s) && s.scan.SawZero? && s.scan.inst in s.traffic && !s.traffic[s.scan.inst].parking
    requires FinishTimed(s, s.scan.inst) && NotAhead(s, s.scan.inst, noted)
    requires noted.Some? ==> noted.value <= s.traffic[s.scan.inst].last
    ensures Can(s, ScanClaim) <==>
      s.finished[s.scan.inst] + s.idleTime <= s.now && (noted.Some? ==> noted.value + s.idleTime <= s.now)
  {
    forall r | r in s.reqs ensures s.reqs[r].inst != s.scan.inst { assert r in On(s.reqs, s.reqs[r].inst); }
  }

  /** And conversely: when every write comes in order, the parker's look at a VM with no request in flight and no
      park claims it if and only if a whole idle time has gone since a request to it last finished, and since the
      last failed park that has been noted. */
  lemma ClaimsExactly(ss: seq<State>, sts: seq<Step>, k: nat)
    requires IsRun(ss, sts) && WrittenInOrder(ss, sts) && k < |ss|
    requires ss[k].scan.SawZero? && ss[k].scan.inst in ss[k].traffic && !ss[k].traffic[ss[k].scan.inst].parking
    ensures
      var s := ss[k];
      var i, noted := s.scan.inst, LastNoted(ss, sts, k, s.scan.inst);
      Can(s, ScanClaim) <==>
        && LastFinish(ss, sts, k, i) + s.idleTime <= s.now
        && (noted.Some? ==> noted.value + s.idleTime <= s.now)
  {
    var s, i := ss[k], ss[k].scan.inst;
    EveryStateTimed(ss, sts, k);
    HistoryIs(ss, sts, k, i);
    EveryStateNotAhead(ss, sts, k, i);
    NotedIsIn(ss, sts, k, i);
    assert FinishTimed(s, i);
    ClaimsWhen(s, LastNoted(ss, sts, k, i));
  }

  /** The parker's look at `i` can still end in a claim before `since` is a whole idle time ago. */
  ghost predicate MayClaimEarly(s: State, since: Time) {
    exists t: Time :: Can(s, Tick(t)) && Can(Do(s, Tick(t)), ScanClaim) && t < since + s.idleTime
  }

  lemma EarlyExactly(s: State, since: Time)
    requires s.scan.SawZero? && s.scan.inst in s.traffic && !s.traffic[s.scan.inst].parking
    ensures MayClaimEarly(s, since) <==>
      s.traffic[s.scan.inst].last < since && s.now < since + s.idleTime
  {
    var last := s.traffic[s.scan.inst].last;
    if last < since && s.now < since + s.idleTime {
      var t := if s.now < last + s.idleTime then last + s.idleTime else s.now;
      assert Can(s, Tick(t)) && Can(Do(s, Tick(t)), ScanClaim);
    }
  }

  /** Whatever order the writes come in: a look that has seen no request in flight may claim the VM too early after
      a request if and only if the clock last written is older than the one last read, and the idle time since
      that is not over anyway. */
  lemma EarlyAfterRequestExactly(ss: seq<State>, sts: seq<Step>, k: nat)
    requires IsRun(ss, sts) && k < |ss|
    requires ss[k].scan.SawZero? && ss[k].scan.inst in ss[k].traffic && !ss[k].traffic[ss[k].scan.inst].parking
    ensures
      var s, finish := ss[k], LastFinish(ss, sts, k, ss[k].scan.inst);
      MayClaimEarly(s, finish) <==> LastWrite(ss, sts, k, s.scan.inst) < finish && s.now < finish + s.idleTime
  {
    HistoryIs(ss, sts, k, ss[k].scan.inst);
    EarlyExactly(ss[k], LastFinish(ss, sts, k, ss[k].scan.inst));
  }

  /** And it may retry a failed park too early if and only if the clock last written is older than the failure, and
      the idle time since that is not over; when writes come in order, only as long as the park owes its own. */
  lemma EarlyAfterFailureExactly(ss: seq<State>, sts: seq<Step>, k: nat)
    requires IsRun(ss, sts) && k < |ss|
    requires ss[k].scan.SawZero? && ss[k].scan.inst in ss[k].traffic && !ss[k].traffic[ss[k].scan.inst].parking
    requires LastFailure(ss, sts, k, ss[k].scan.inst).Some?
    ensures
      var s, failure := ss[k], LastFailure(ss, sts, k, ss[k].scan.inst).value;
      MayClaimEarly(s, failure) <==> LastWrite(ss, sts, k, s.scan.inst) < failure && s.now < failure + s.idleTime
    ensures WrittenInOrder(ss, sts) && MayClaimEarly(ss[k], LastFailure(ss, sts, k, ss[k].scan.inst).value) ==>
      ss[k].scan.inst in ss[k].failed && Owed(ss[k], ss[k].scan.inst)
  {
    var i := ss[k].scan.inst;
    HistoryIs(ss, sts, k, i);
    EarlyExactly(ss[k], LastFailure(ss, sts, k, i).value);
    if WrittenInOrder(ss, sts) {
      EveryStateTimed(ss, sts, k);
      assert FailureTimed(ss[k], i);
    }
  }

  // ------------------------------------------------------ whom a park reaches --

  /** No VM and no park is ever numbered twice, and a park keeps its claim. */
  ghost predicate Shape(s: State, st: Step, s': State) {
    && s.nextInst <= s'.nextInst && s.nextPark <= s'.nextPark
    && (st.End? ==> s'.running == None)
    && (!st.End? && s.running.Some? ==> s'.running == s.running)
    && (s.running.None? && s'.running.Some? ==> s'.running.value == s.nextInst)
    && (forall p | p in s'.parks && p < s.nextPark ::
          && p in s.parks && s'.parks[p].inst == s.parks[p].inst
          && (s'.parks[p].Claimed? ==> s'.parks[p] == s.parks[p]))
  }

  lemma ShapeOf(s: State, st: Step)
    requires Can(s, st)
    ensures Shape(s, st, Do(s, st))
  {
  }

  ghost predicate Shaped(ss: seq<State>, sts: seq<Step>) {
    |ss| == |sts| + 1 && forall m | 0 <= m < |sts| :: Shape(ss[m], sts[m], ss[m + 1])
  }

  lemma RunShaped(ss: seq<State>, sts: seq<Step>)
    requires IsRun(ss, sts)
    ensures Shaped(ss, sts)
  {
    forall m | 0 <= m < |sts| ensures Shape(ss[m], sts[m], ss[m + 1]) { ShapeOf(ss[m], sts[m]); }
  }

  lemma {:induction false} NumbersGrow(ss: seq<State>, sts: seq<Step>, j: nat, k: nat)
    requires Shaped(ss, sts) && j <= k < |ss|
    ensures ss[j].nextInst <= ss[k].nextInst && ss[j].nextPark <= ss[k].nextPark
  {
    if j < k {
      NumbersGrow(ss, sts, j, k - 1);
      assert Shape(ss[k - 1], sts[k - 1], ss[k]);
    }
  }

  lemma {:induction false} GoneForGood(ss: seq<State>, sts: seq<Step>, j: nat, k: nat, i: Inst)
    requires Shaped(ss, sts) && j <= k < |ss| && i < ss[j].nextInst && ss[j].running != Some(i)
    ensures ss[k].running != Some(i) && i < ss[k].nextInst
  {
    if j < k {
      GoneForGood(ss, sts, j, k - 1, i);
      assert Shape(ss[k - 1], sts[k - 1], ss[k]);
    }
  }

  lemma {:induction false} RunsOn(ss: seq<State>, sts: seq<Step>, j: nat, k: nat, i: Inst)
    requires Shaped(ss, sts) && j <= k < |ss| && ss[j].running == Some(i)
    requires forall m | j <= m < k :: !sts[m].End?
    ensures ss[k].running == Some(i)
  {
    if j < k {
      RunsOn(ss, sts, j, k - 1, i);
      assert Shape(ss[k - 1], sts[k - 1], ss[k]);
    }
  }

  /** A park that is there now was there since it was made, with the claim it has. */
  lemma {:induction false} ClaimStays(ss: seq<State>, sts: seq<Step>, j: nat, k: nat, p: Park)
    requires Shaped(ss, sts) && j <= k < |ss| && p in ss[k].parks && p < ss[j].nextPark
    ensures p in ss[j].parks && ss[k].parks[p].inst == ss[j].parks[p].inst
    ensures ss[k].parks[p].Claimed? ==> ss[k].parks[p] == ss[j].parks[p]
  {
    if j < k {
      NumbersGrow(ss, sts, j, k - 1);
      assert Shape(ss[k - 1], sts[k - 1], ss[k]);
      ClaimStays(ss, sts, j, k - 1, p);
    }
  }

  /** The VM a step claims. */
  function ClaimedBy(s: State, st: Step): Option<Inst> {
    if st.ScanClaim? && s.scan.SawZero? then Some(s.scan.inst) else if st.Claim? then s.running else None
  }

  lemma ClaimsWhatRuns(s: State, st: Step)
    requires Inv(s) && Can(s, st) && ClaimedBy(s, st).Some?
    ensures var s' := Do(s, st);
            && s'.running == ClaimedBy(s, st) && s.nextPark in s'.parks && s'.nextPark == s.nextPark + 1
            && s'.parks[s.nextPark] == Claimed(ClaimedBy(s, st).value, st.ScanClaim?)
            && ClaimedBy(s, st).value < s'.nextInst
  {
  }

  lemma EndsIt(ss: seq<State>, sts: seq<Step>, j: nat, m: nat, k: nat, i: Inst)
    requires Shaped(ss, sts) && j <= m < k < |ss| && i < ss[j].nextInst && sts[m].End?
    ensures ss[k].running != Some(i)
  {
    NumbersGrow(ss, sts, j, m + 1);
    assert Shape(ss[m], sts[m], ss[m + 1]);
    GoneForGood(ss, sts, m + 1, k, i);
  }

  lemma RunsExactly(ss: seq<State>, sts: seq<Step>, j: nat, k: nat, i: Inst)
    requires Shaped(ss, sts) && j <= k < |ss| && ss[j].running == Some(i) && i < ss[j].nextInst
    ensures ss[k].running == Some(i) <==> forall m | j <= m < k :: !sts[m].End?
  {
    if m :| j <= m < k && sts[m].End? { EndsIt(ss, sts, j, m, k, i); } else { RunsOn(ss, sts, j, k, i); }
  }

  /** A park claimed at step `j` and sent at step `k` goes to the VM that it claimed if and only if no VM has ended
      in between; an idle park that does goes to a VM with no request in flight. */
  lemma SentToClaimedExactly(ss: seq<State>, sts: seq<Step>, j: nat, k: nat)
    requires IsRun(ss, sts) && j < k < |sts| && ClaimedBy(ss[j], sts[j]).Some? && sts[k] == Send(ss[j].nextPark)
    ensures ss[j].nextPark in ss[k + 1].parks && ss[k + 1].parks[ss[j].nextPark].Sent?
    ensures ss[k + 1].parks[ss[j].nextPark].to == ClaimedBy(ss[j], sts[j]).value <==>
      forall m | j < m < k :: !sts[m].End?
    ensures sts[j].ScanClaim? ==> On(ss[k].reqs, ClaimedBy(ss[j], sts[j]).value) == {}
  {
    var p, i := ss[j].nextPark, ClaimedBy(ss[j], sts[j]).value;
    EveryStateSound(ss, sts, j);
    ClaimsWhatRuns(ss[j], sts[j]);
    SendsTo(ss[k], p);
    RunShaped(ss, sts);
    ClaimStays(ss, sts, j + 1, k, p);
    RunsExactly(ss, sts, j + 1, k, i);
    assert (forall m | j < m < k :: !sts[m].End?) <==> (forall m | j + 1 <= m < k :: !sts[m].End?);
    if sts[j].ScanClaim? {
      EveryStateSound(ss, sts, k);
      assert ss[k].parks[p].Idles();
    }
  }

  /** Request `r` has entered on `i` at step `a`, and has not left by state `k`. */
  ghost predicate EnteredAt(ss: seq<State>, sts: seq<Step>, a: nat, k: nat, i: Inst, r: Req)
    requires k <= |sts| && |ss| == |sts| + 1
  {
    && a < k && sts[a] == Arrive(r) && ss[a].running == Some(i)
    && forall m | a < m < k :: sts[m] != Leave(r)
  }

  ghost predicate IsIn(s: State, i: Inst, r: Req) { r in s.reqs && s.reqs[r].inst == i }

  lemma InStep(s: State, st: Step, i: Inst, r: Req)
    requires Can(s, st)
    ensures IsIn(Do(s, st), i, r) <==> (IsIn(s, i, r) && st != Leave(r)) || (st == Arrive(r) && s.running == Some(i))
  {
  }

  ghost predicate Entered(ss: seq<State>, sts: seq<Step>, k: nat, i: Inst, r: Req)
    requires k <= |sts| && |ss| == |sts| + 1
  {
    exists a: nat :: EnteredAt(ss, sts, a, k, i, r)
  }

  lemma EnteredNext(ss: seq<State>, sts: seq<Step>, k: nat, i: Inst, r: Req)
    requires k < |sts| && |ss| == |sts| + 1
    ensures Entered(ss, sts, k + 1, i, r) <==>
      (Entered(ss, sts, k, i, r) && sts[k] != Leave(r)) || (sts[k] == Arrive(r) && ss[k].running == Some(i))
  {
    if sts[k] == Arrive(r) && ss[k].running == Some(i) {
      assert EnteredAt(ss, sts, k, k + 1, i, r);
    } else if Entered(ss, sts, k, i, r) && sts[k] != Leave(r) {
      var a: nat :| EnteredAt(ss, sts, a, k, i, r);
      assert EnteredAt(ss, sts, a, k + 1, i, r);
    } else if Entered(ss, sts, k + 1, i, r) {
      var a: nat :| EnteredAt(ss, sts, a, k + 1, i, r);
      assert EnteredAt(ss, sts, a, k, i, r);
    }
  }

  /** A request is in flight to a VM if and only if it entered on it and has not left. */
  lemma {:induction false} InFlightExactly(ss: seq<State>, sts: seq<Step>, k: nat, i: Inst, r: Req)
    requires IsRun(ss, sts) && k < |ss|
    ensures IsIn(ss[k], i, r) <==> Entered(ss, sts, k, i, r)
  {
    if k > 0 {
      InFlightExactly(ss, sts, k - 1, i, r);
      InStep(ss[k - 1], sts[k - 1], i, r);
      EnteredNext(ss, sts, k - 1, i, r);
    }
  }

  /** An idle park claimed at step `j` and sent at step `k` meets a request if and only if a VM has ended in between, and
      a request has entered since on the one that runs now, and has not left. */
  lemma MeetsRequestExactly(ss: seq<State>, sts: seq<Step>, j: nat, k: nat, to: Inst)
    requires IsRun(ss, sts) && j < k < |sts| && sts[j].ScanClaim? && sts[k] == Send(ss[j].nextPark) && ss[k].running == Some(to)
    ensures On(ss[k].reqs, to) != {} <==>
      && (exists m :: j < m < k && sts[m].End?)
      && exists a: nat, r :: j < a && EnteredAt(ss, sts, a, k, to, r)
  {
    if On(ss[k].reqs, to) != {} {
      var r :| r in On(ss[k].reqs, to);
      assert IsIn(ss[k], to, r);
      InFlightExactly(ss, sts, k, to, r);
      var a: nat :| EnteredAt(ss, sts, a, k, to, r);
      EndedBetween(ss, sts, j, k, to);
      EnteredSince(ss, sts, j, k, a, to);
      assert j < a && EnteredAt(ss, sts, a, k, to, r);
    }
    if a: nat, r :| j < a && EnteredAt(ss, sts, a, k, to, r) {
      InFlightExactly(ss, sts, k, to, r);
      assert r in On(ss[k].reqs, to);
    }
  }

  /** The VM that runs now has a request, so it is not the one that was claimed. */
  lemma EndedBetween(ss: seq<State>, sts: seq<Step>, j: nat, k: nat, to: Inst)
    requires IsRun(ss, sts) && j < k < |sts| && sts[j].ScanClaim? && sts[k] == Send(ss[j].nextPark)
    requires ss[k].running == Some(to) && On(ss[k].reqs, to) != {}
    ensures exists m :: j < m < k && sts[m].End?
  {
    EveryStateSound(ss, sts, j);
    assert Can(ss[j], sts[j]) && Can(ss[k], sts[k]);
    SentToClaimedExactly(ss, sts, j, k);
    SendsTo(ss[k], ss[j].nextPark);
  }

  /** And it has started since. */
  lemma EnteredSince(ss: seq<State>, sts: seq<Step>, j: nat, k: nat, a: nat, to: Inst)
    requires IsRun(ss, sts) && j < k < |ss| && a < k && ss[a].running == Some(to) && ss[k].running == Some(to)
    requires exists m :: j < m < k && sts[m].End?
    ensures j < a
  {
    if a <= j {
      var m :| j < m < k && sts[m].End?;
      EveryStateSound(ss, sts, a);
      RunShaped(ss, sts);
      EndsIt(ss, sts, a, m, k, to);
    }
  }

  lemma SendsTo(s: State, p: Park)
    requires Can(s, Send(p))
    ensures p in Do(s, Send(p)).parks && Do(s, Send(p)).parks[p] == Sent(s.parks[p].inst, s.parks[p].idle, s.running.value)
  {
  }

  // ---------------------------------------------------------------- runs --

  ghost predicate Reachable(s: State) {
    exists ss, sts :: IsRun(ss, sts) && ss[|ss| - 1] == s
  }

  lemma Begins(idleTime: Time) returns (s: State)
    ensures Reachable(s) && s == NewApp(idleTime)
  {
    s := NewApp(idleTime);
    assert IsRun([s], []);
  }

  lemma Takes(s: State, st: Step) returns (s': State)
    requires Reachable(s) && Can(s, st)
    ensures Reachable(s') && s' == Do(s, st)
  {
    s' := Do(s, st);
    var ss, sts :| IsRun(ss, sts) && ss[|ss| - 1] == s;
    var ss', sts' := ss + [s'], sts + [st];
    forall k | 0 <= k < |sts'| ensures Can(ss'[k], sts'[k]) && Do(ss'[k], sts'[k]) == ss'[k + 1] { }
    assert IsRun(ss', sts') && ss'[|ss'| - 1] == s';
  }

  lemma TwoArrive(idleTime: Time) returns (s: State)
    ensures Reachable(s)
    ensures s == State(0, idleTime, Some(0), map[0 := Record(2, 0, false)],
                       map[1 := Proxying(0), 2 := Proxying(0)], Off, map[], 1, 0, map[0 := 0], map[])
  {
    s := Begins(idleTime);
    s := Takes(s, Start);
    s := Takes(s, Arrive(1));
    s := Takes(s, Arrive(2));
  }

  lemma TwoDrop(idleTime: Time) returns (s: State)
    ensures Reachable(s)
    ensures s == State(idleTime, idleTime, Some(0), map[0 := Record(2, 0, false)],
                       map[1 := Stamped(0, 0), 2 := Stamped(0, idleTime)], Off, map[], 1, 0, map[0 := idleTime], map[])
  {
    s := TwoArrive(idleTime);
    s := Takes(s, Stamp(1));
    s := Takes(s, Tick(idleTime));
    s := Takes(s, Stamp(2));
  }

  lemma OlderWrittenLast(idleTime: Time) returns (s: State)
    ensures Reachable(s)
    ensures s == State(idleTime, idleTime, Some(0), map[0 := Record(2, 0, false)],
                       map[1 := Written(0), 2 := Written(0)], Off, map[], 1, 0, map[0 := idleTime], map[])
  {
    s := TwoDrop(idleTime);
    s := Takes(s, Write(2));
    s := Takes(s, Write(1));
  }

  /** Two requests drop at once and the older clock is written last: the VM is claimed at the very moment a
      request finished, although a whole idle time was due. */
  lemma OvertakenWrite(idleTime: Time) returns (s: State)
    requires idleTime > 0
    ensures Reachable(s) && Can(s, ScanClaim) && s.idleTime == idleTime
    ensures s.scan.inst in s.finished && s.finished[s.scan.inst] == s.now
  {
    s := OlderWrittenLast(idleTime);
    s := Takes(s, Leave(1));
    s := Takes(s, Leave(2));
    s := Takes(s, ScanBegin);
    s := Takes(s, ScanCount);
  }

  /** The parker looks again between a failed park's release and its write: the VM is claimed again at once. */
  lemma RetriedAtOnce(idleTime: Time) returns (s: State)
    requires idleTime > 0
    ensures Reachable(s) && Can(s, ScanClaim) && s.idleTime == idleTime
    ensures s.scan.inst in s.failed && s.failed[s.scan.inst] == s.now
  {
    s := Begins(idleTime);
    s := Takes(s, Start);
    s := Takes(s, Tick(idleTime));
    s := Takes(s, ScanBegin);
    s := Takes(s, ScanCount);
    s := Takes(s, ScanClaim);
    s := Takes(s, Release(0, false));
    s := Takes(s, ScanBegin);
    s := Takes(s, ScanCount);
  }

  /** The claimed VM ends and another starts under its name before the park looks it up: the idle park goes
      to a VM that is serving a request. */
  lemma BusyVmParked(idleTime: Time) returns (s: State, p: Park)
    ensures Reachable(s) && p in s.parks && s.parks[p].Sent? && s.parks[p].Idles()
    ensures exists r :: r in s.reqs && s.reqs[r] == Proxying(s.parks[p].to)
  {
    p := 0;
    s := Begins(idleTime);
    s := Takes(s, Start);
    s := Takes(s, Tick(idleTime));
    s := Takes(s, ScanBegin);
    s := Takes(s, ScanCount);
    s := Takes(s, ScanClaim);
    s := Takes(s, End);
    s := Takes(s, Start);
    s := Takes(s, Arrive(7));
    s := Takes(s, Send(p));
    assert s.reqs[7] == Proxying(s.parks[p].to);
  }
}
