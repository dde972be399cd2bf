/** One request at the edge, held until its App runs or it is known why it does not. */
module Edge {
  import opened Common
  import Registry

  /** What the edge finds for the hostname each time it looks at the VM table. */
  datatype Look = Answer | HoldStart | HoldPark | Parked

  /** What a look at an App's entry finds, `claims` being the VMs that are being parked. */
  function LookAt(e: Registry.Entry, claims: set<Registry.Inst>): Look {
    match e
    case Running(_, _, _, inst) => if inst in claims then HoldPark else Answer
    case Starting(_, _, _) => HoldStart
    case Ended(rec) => if rec.reason.Parked? then Parked else Answer
  }

  /** How a wake this request asked for came out: `Conflict` when another's got there first or the snapshot
      is gone, `Late` when the deadline passed. */
  datatype WakeEnd = Woke | Conflict(why: string) | Failed(why: string) | Late

  /** One pass of the loop: the look, whether what it then holds for settles in time, how a wake would end,
      and the App's last recorded wake failure. */
  datatype Turn = Turn(look: Look, settles: bool, wake: WakeEnd, recorded: Option<string>)

  datatype Resolution = Answered | StillStarting | StillParking | Unavailable(why: Option<string>)

  /** The request has held for a start, or lost a wake, in an earlier turn. */
  predicate Tried(turns: seq<Turn>, k: nat)
    requires k <= |turns|
  {
    exists j :: 0 <= j < k && (turns[j].look.HoldStart? || (turns[j].look.Parked? && turns[j].wake.Conflict?))
  }

  /** Why the wake this request lost last was lost, if it lost one after it last held for a start. */
  function LostTo(turns: seq<Turn>): Option<string> {
    if turns == [] then None
    else
      var last := turns[|turns| - 1];
      if last.look.HoldStart? then None
      else if last.look.Parked? && last.wake.Conflict? then Some(last.wake.why)
      else LostTo(turns[..|turns| - 1])
  }

  /** The request is answered in this turn. */
  predicate Ends(tried: bool, t: Turn) {
    match t.look
    case Answer => true
    case HoldStart => !t.settles
    case HoldPark => !t.settles
    case Parked => tried || t.wake.Failed? || t.wake.Late?
  }

  /** What the answer says. */
  predicate Says(tried: bool, lost: Option<string>, t: Turn, res: Resolution) {
    && (res.Answered? <==> t.look.Answer?)
    && (res.StillParking? <==> t.look.HoldPark?)
    && (res.Unavailable? <==> t.look.Parked? && (tried || t.wake.Failed?))
    && (res.Unavailable? && tried ==> res.why == if lost.Some? then lost else t.recorded)
    && (res.Unavailable? && !tried ==> t.wake.Failed? && res.why == Some(t.wake.why))
  }

  /** Whatever the table shows it and however its wakes end: a request asks for a wake exactly when it finds
      its App parked having neither held for a start nor lost a wake, so no wake follows one that failed, at
      most one of its wakes fails, and none comes after it held for a start. */
  method Resolve(turns: seq<Turn>) returns (res: Option<Resolution>, wakes: set<nat>, used: nat)
    ensures used <= |turns| && (res.None? ==> used == |turns|) && (res.Some? ==> used > 0)
    ensures forall k: nat :: k in wakes <==> k < used && turns[k].look.Parked? && !Tried(turns, k)
    ensures forall k, j | k in wakes && 0 <= j < k :: !turns[j].look.HoldStart?
    ensures forall k, j | k in wakes && j in wakes && j < k :: turns[j].wake.Woke?
    ensures forall k | 0 <= k < used :: Ends(Tried(turns, k), turns[k]) <==> res.Some? && k == used - 1
    ensures res.Some? ==> Says(Tried(turns, used - 1), LostTo(turns[..used - 1]), turns[used - 1], res.value)
  {
    var tried: Option<Option<string>> := None;
    res, wakes, used := None, {}, 0;
    while used < |turns| && res.None?
      invariant used <= |turns| && (res.Some? ==> used > 0)
      invariant res.None? ==> (tried.Some? <==> Tried(turns, used))
      invariant res.None? && tried.Some? ==> tried.value == LostTo(turns[..used])
      invariant forall k: nat :: k in wakes <==> k < used && turns[k].look.Parked? && !Tried(turns, k)
      invariant forall k | 0 <= k < used :: Ends(Tried(turns, k), turns[k]) <==> res.Some? && k == used - 1
      invariant res.Some? ==> Says(Tried(turns, used - 1), LostTo(turns[..used - 1]), turns[used - 1], res.value)
      decreases |turns| - used
    {
      var t := turns[used];
      assert turns[..used + 1][..used] == turns[..used];
      match t.look {
        case Answer => res := Some(Answered);
        case HoldStart =>
          tried := Some(None);
          if !t.settles { res := Some(StillStarting); }
        case HoldPark =>
          if !t.settles { res := Some(StillParking); }
        case Parked =>
          if tried.Some? {
            res := Some(Unavailable(if tried.value.Some? then tried.value else t.recorded));
          } else {
            wakes := wakes + {used};
            match t.wake {
              case Late => res := Some(StillStarting);
              case Woke =>
              case Conflict(why) => tried := Some(Some(why));
              case Failed(why) => res := Some(Unavailable(Some(why)));
            }
          }
      }
      used := used + 1;
    }
    forall k, j | k in wakes && j in wakes && j < k ensures turns[j].wake.Woke? {
      assert !Tried(turns, k) && !Ends(Tried(turns, j), turns[j]);
    }
  }
}
