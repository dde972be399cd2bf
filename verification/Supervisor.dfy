/** A supervisor: owns one running VM until it ends. */
module Supervisor {
  import opened Common
  import Registry
  import SnapshotFiles

  /** How asking the guest to stop went. */
  datatype CtrlAltDel = Sent | NotSent(ended: bool, crashed: bool)

  datatype Stop =
    | Graceful(cad: CtrlAltDel)
    | Force
    | Park(id: nat, outcome: SnapshotFiles.Parking)

  /** What the supervisor's `select` gives it next: the VMM's end before anything else that is ready. */
  datatype Event = VmmEnds(crashed: bool) | Recv(stop: Stop) | Closed | Deadline

  datatype Answer = Answer(id: nat, ok: bool)

  /** Why the VM ended, what each park was told, whether the VMM runs, and how often it was torn down. */
  datatype Outcome = Outcome(
    reason: Option<Registry.Reason>, answers: seq<Answer>, lives: bool, stopping: bool, teardowns: nat)

  function ParkIds(events: seq<Event>): seq<nat> {
    if events == [] then []
    else
      var last := events[|events| - 1];
      ParkIds(events[..|events| - 1]) + (if last.Recv? && last.stop.Park? then [last.stop.id] else [])
  }

  function Ids(answers: seq<Answer>): (ids: seq<nat>)
    ensures |ids| == |answers|
  {
    seq(|answers|, i requires 0 <= i < |answers| => answers[i].id)
  }

  predicate IsGraceful(e: Event) { e.Recv? && e.stop.Graceful? }

  /** A graceful stop was received before the event at `k`. */
  predicate Asked(events: seq<Event>, k: nat)
    requires k <= |events|
  {
    exists j :: 0 <= j < k && IsGraceful(events[j])
  }

  /** The event is the last the supervisor takes. */
  predicate Ends(asked: bool, e: Event) {
    match e
    case VmmEnds(_) => true
    case Closed => true
    case Deadline => asked
    case Recv(Force) => true
    case Recv(Graceful(cad)) => !asked && cad.NotSent?
    case Recv(Park(_, outcome)) => !asked && !outcome.Resumed?
  }

  /** The VMM ended by itself, and how. */
  predicate OwnEnd(e: Event) { e.VmmEnds? || (IsGraceful(e) && e.stop.cad.NotSent? && e.stop.cad.ended) }
  predicate Crash(e: Event) { (e.VmmEnds? && e.crashed) || (IsGraceful(e) && e.stop.cad.NotSent? && e.stop.cad.crashed) }
  predicate KeptPark(e: Event) { e.Recv? && e.stop.Park? && e.stop.outcome.Kept? }

  /** What each reason a VM ends for means. */
  predicate Explains(asked: bool, e: Event, reason: Registry.Reason) {
    && (reason == Registry.Crashed <==> OwnEnd(e) && Crash(e))
    && (reason == Registry.Exited <==> OwnEnd(e) && !Crash(e) && !asked)
    && (reason == Registry.Reason.Graceful <==> OwnEnd(e) && !Crash(e) && asked)
    && (reason == Registry.Reason.Parked <==> KeptPark(e) && !asked)
    && reason != Registry.AgentDown
  }

  /** Alive exactly while there is no reason to have ended; Ok only from the park that ended it. */
  predicate Sound(o: Outcome) {
    && (o.reason.None? ==> o.lives && o.teardowns == 0)
    && (o.reason.Some? ==> !o.lives)
    && (forall k | 0 <= k < |o.answers| && o.answers[k].ok :: k == |o.answers| - 1 && o.reason == Some(Registry.Reason.Parked))
    && (o.reason == Some(Registry.Reason.Parked) ==>
          !o.stopping && o.answers != [] && o.answers[|o.answers| - 1].ok)
  }

  function Natural(crashed: bool): Registry.Reason { if crashed then Registry.Crashed else Registry.Exited }

  /** One event, while nothing has asked the VM to stop. */
  method WhileUp(o: Outcome, e: Event) returns (o': Outcome)
    requires Sound(o) && o.reason.None? && !o.stopping
    ensures Sound(o') && o'.teardowns == o.teardowns
    ensures Ids(o'.answers) == Ids(o.answers) + (if e.Recv? && e.stop.Park? then [e.stop.id] else [])
    ensures o'.stopping <==> IsGraceful(e)
    ensures o'.reason.Some? <==> Ends(false, e)
    ensures o'.reason.Some? ==> Explains(false, e, o'.reason.value)
  {
    match e
    case VmmEnds(crashed) => o' := o.(reason := Some(Natural(crashed)), lives := false);
    case Recv(Park(id, outcome)) =>
      match outcome {
        case Kept =>
          o' := o.(reason := Some(Registry.Reason.Parked), lives := false, answers := o.answers + [Answer(id, true)]);
        case Resumed => o' := o.(answers := o.answers + [Answer(id, false)]);
        case Lost => o' := o.(reason := Some(Registry.Forced), lives := false, answers := o.answers + [Answer(id, false)]);
      }
    case Recv(Graceful(cad)) =>
      o' := o.(stopping := true);
      if cad.NotSent? {
        o' := o'.(reason := Some(if cad.ended then Natural(cad.crashed) else Registry.Forced), lives := false);
      }
    case Recv(Force) => o' := o.(reason := Some(Registry.Forced), lives := false);
    case Closed => o' := o.(reason := Some(Registry.Forced), lives := false);
    case Deadline => o' := o;
  }

  /** One event, once a graceful stop has begun. */
  method WhileStopping(o: Outcome, e: Event) returns (o': Outcome)
    requires Sound(o) && o.reason.None? && o.stopping
    ensures Sound(o') && o'.stopping && o'.teardowns == o.teardowns
    ensures Ids(o'.answers) == Ids(o.answers) + (if e.Recv? && e.stop.Park? then [e.stop.id] else [])
    ensures o'.reason.Some? <==> Ends(true, e)
    ensures o'.reason.Some? ==> Explains(true, e, o'.reason.value)
  {
    match e
    case VmmEnds(crashed) =>
      o' := o.(reason := Some(if crashed then Registry.Crashed else Registry.Reason.Graceful), lives := false);
    case Deadline => o' := o.(reason := Some(Registry.Forced), lives := false);
    case Recv(Graceful(_)) => o' := o;
    case Recv(Park(id, _)) => o' := o.(answers := o.answers + [Answer(id, false)]);
    case Recv(Force) => o' := o.(reason := Some(Registry.Forced), lives := false);
    case Closed => o' := o.(reason := Some(Registry.Forced), lives := false);
  }

  /** Over every sequence of events: it takes events up to the first that ends the VM, which explains the
      reason; each park received is answered once, in order, Ok exactly when the VM then ends as parked with
      its VMM dead, which no VM does once a graceful stop has begun; a VM whose park resumed runs on; and one
      that ended is torn down once, its VMM dead. */
  method Supervise(events: seq<Event>) returns (o: Outcome, used: nat)
    ensures used <= |events| && Ids(o.answers) == ParkIds(events[..used])
    ensures o.reason.None? ==> used == |events| && o.lives && o.teardowns == 0
    ensures o.reason.Some? ==> used > 0 && !o.lives && o.teardowns == 1
    ensures forall k | 0 <= k < |o.answers| && o.answers[k].ok :: k == |o.answers| - 1 && o.reason == Some(Registry.Reason.Parked)
    ensures o.reason == Some(Registry.Reason.Parked) ==> o.answers != [] && o.answers[|o.answers| - 1].ok
    ensures Asked(events, used) ==> o.reason != Some(Registry.Reason.Parked)
    ensures forall k | 0 <= k < used :: Ends(Asked(events, k), events[k]) <==> o.reason.Some? && k == used - 1
    ensures o.reason.Some? ==> Explains(Asked(events, used - 1), events[used - 1], o.reason.value)
  {
    o := Outcome(None, [], true, false, 0);
    used := 0;
    while used < |events| && o.reason.None?
      invariant used <= |events| && Sound(o) && o.teardowns == 0
      invariant Ids(o.answers) == ParkIds(events[..used])
      invariant o.reason.Some? ==> used > 0
      invariant o.stopping <==> Asked(events, used)
      invariant forall k | 0 <= k < used :: Ends(Asked(events, k), events[k]) <==> o.reason.Some? && k == used - 1
      invariant o.reason.Some? ==> Explains(Asked(events, used - 1), events[used - 1], o.reason.value)
    {
      var e := events[used];
      if o.stopping {
        o := WhileStopping(o, e);
      } else {
        o := WhileUp(o, e);
      }
      assert events[..used + 1][..used] == events[..used];
      used := used + 1;
    }
    if o.reason.Some? {
      o := o.(teardowns := o.teardowns + 1);
    }
  }
}
