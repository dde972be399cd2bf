/** Bringing one VM up and taking it down again: the host steps and the stack that undoes them. */
module Vm {
  import opened Common
  import opened Registry

  /** How a foreign call went; one that fails may have made its objects all the same. */
  datatype Fate = Works | Fails(made: bool)

  /** One undo step, and the object it removes. */
  type Undo = Obj

  /** The calls of a start, in the order they are made. */
  datatype Call =
    | AddNetns | MakeJailBase | OpenConsole | OwnConsole | CloneConsole | SpawnJailer | IdentifyJailer
    | LinkBatch | NetnsBatch | Forwarding | Nat | ApiSocket
    | Guest(step: int)           // kernel, rootfs and devices, or the snapshot; then the boot, or the load

  /** What the undo steps of `undo` remove when those in `stuck` fail. */
  function Unwind(objs: set<Obj>, undo: seq<Undo>, stuck: set<Obj>): set<Obj> {
    if undo == [] then objs
    else
      var step := undo[|undo| - 1];
      Unwind(if step in stuck then objs else objs - {step}, undo[..|undo| - 1], stuck)
  }

  /** Unwinding removes exactly the objects that have an undo step, but for those whose step fails. */
  lemma {:induction false} UnwindRemoves(objs: set<Obj>, undo: seq<Undo>, stuck: set<Obj>)
    ensures Unwind(objs, undo, stuck) == set o | o in objs && (o !in undo || o in stuck)
  {
    if undo != [] {
      var step, rest := undo[|undo| - 1], undo[..|undo| - 1];
      UnwindRemoves(if step in stuck then objs else objs - {step}, rest, stuck);
      assert undo == rest + [step];
      assert forall o :: o in undo <==> o in rest || o == step;
    }
  }

  /** Every step that undoes a fully started VM, in the order the start pushes them. */
  const UNDO_STEPS: seq<Undo> := [Netns, JailDir, Cgroup, Veth]

  /** The calls from the namespace's making to the veth's. */
  const SPAWN_CALLS: seq<Call> := [MakeJailBase, OpenConsole, OwnConsole, CloneConsole, SpawnJailer, IdentifyJailer]

  /** The calls from the veth's making to Firecracker's answer on its socket. */
  const LINK_CALLS: seq<Call> := [LinkBatch, NetnsBatch, Forwarding, Nat, ApiSocket]

  /** Every call that works on the host, in the order they are made. */
  const HOST_CALLS: seq<Call> := [AddNetns] + SPAWN_CALLS + LINK_CALLS

  /** The undo steps a start has pushed when it stops. */
  function StackOf(fate: Call -> Fate): seq<Undo> {
    if !fate(AddNetns).Works? then []
    else if forall call | call in SPAWN_CALLS :: fate(call).Works? then UNDO_STEPS
    else [Netns, JailDir, Cgroup]
  }

  class Vm {
    var undo: seq<Undo>
    var spawned: bool         // there is a VMM to kill
    var lives: bool           // and it runs
    var jailed: bool          // the jail's root is known
    var objs: set<Obj>        // the host objects under this VM's id

    constructor Empty()
      ensures undo == [] && !spawned && !lives && !jailed && objs == {}
    {
      undo, spawned, lives, jailed, objs := [], false, false, false, {};
    }

    /** A VM an earlier agent started: its stack is a fully started VM's. */
    constructor Adopt(objs: set<Obj>, lives: bool)
      ensures undo == UNDO_STEPS && spawned && jailed && this.objs == objs && this.lives == lives
    {
      undo, spawned, jailed := UNDO_STEPS, true, true;
      this.objs, this.lives := objs, lives;
    }

    /** A foreign call; meanwhile jailer, once it runs, makes its jail and its cgroup when it will. */
    method Do(call: Call, makes: set<Obj>, fate: Call -> Fate, jailer: Call -> set<Obj>) returns (ok: bool)
      requires forall c :: jailer(c) <= {JailDir, Cgroup}
      modifies this`objs
      ensures ok <==> fate(call).Works?
      ensures objs == old(objs)
              + (if fate(call).Works? || fate(call).made then makes else {})
              + (if lives then jailer(call) else {})
    {
      if fate(call).Works? || fate(call).made {
        objs := objs + makes;
      }
      if lives {
        objs := objs + jailer(call);
      }
      return fate(call).Works?;
    }

    /** Every object has its undo step on the stack, or was there before. */
    ghost predicate Guarded(was: set<Obj>)
      reads this
    {
      && (forall o | o in objs :: o in undo || o in was)
      && (lives ==> spawned && JailDir in undo && Cgroup in undo)
    }

    /** Calls that make no object of their own, until one fails. */
    method DoAll(calls: seq<Call>, fate: Call -> Fate, jailer: Call -> set<Obj>, ghost was: set<Obj>) returns (ok: bool)
      requires forall c :: jailer(c) <= {JailDir, Cgroup}
      requires Guarded(was)
      modifies this`objs
      ensures Guarded(was) && old(objs) <= objs
      ensures ok <==> forall i | 0 <= i < |calls| :: fate(calls[i]).Works?
    {
      for i := 0 to |calls|
        invariant Guarded(was) && old(objs) <= objs
        invariant forall k | 0 <= k < i :: fate(calls[k]).Works?
      {
        ok := Do(calls[i], {}, fate, jailer);
        if !ok {
          return;
        }
      }
      return true;
    }

    /** Steps 1-4 of every start: the namespace, jailer in it, the links and NAT, Firecracker's socket.  Objects that an
        earlier VM left may be there already. */
    method HostSteps(fate: Call -> Fate, jailer: Call -> set<Obj>) returns (ok: bool)
      requires forall c :: jailer(c) <= {JailDir, Cgroup}
      requires undo == [] && !spawned && !lives && !jailed
      modifies this
      ensures jailed <==> fate(AddNetns).Works?
      ensures undo == StackOf(fate)
      ensures fate(AddNetns).Works? ==> Guarded(old(objs)) && old(objs) <= objs
      ensures !fate(AddNetns).Works? ==>
        !ok && !lives && objs == old(objs) + if fate(AddNetns).made then {Netns} else {}
      ensures ok <==> forall call | call in HOST_CALLS :: fate(call).Works?
      ensures ok ==> undo == UNDO_STEPS && lives && {Netns, Veth} <= objs
      ensures fate(AddNetns).Works? ==> Netns in objs
    {
      ok := Do(AddNetns, {Netns}, fate, jailer);
      if !ok {
        return;
      }
      undo := undo + [Netns];
      jailed := true;
      undo := undo + [JailDir];
      undo := undo + [Cgroup];
      ok := SpawnSteps(fate, jailer, old(objs));
      if ok {
        ok := LinkSteps(fate, jailer, old(objs));
      }
    }

    /** Jailer, and who it is. */
    method SpawnSteps(fate: Call -> Fate, jailer: Call -> set<Obj>, ghost was: set<Obj>) returns (ok: bool)
      requires forall c :: jailer(c) <= {JailDir, Cgroup}
      requires Guarded(was) && !lives && JailDir in undo && Cgroup in undo
      modifies `spawned, `lives, `objs
      ensures Guarded(was) && old(objs) <= objs && (ok ==> lives)
      ensures ok <==> forall call | call in SPAWN_CALLS :: fate(call).Works?
    {
      ok := DoAll(SPAWN_CALLS[..5], fate, jailer, was);
      if !ok {
        assert exists i :: 0 <= i < 5 && !fate(SPAWN_CALLS[i]).Works?;
        return;
      }
      spawned, lives := true, true;
      ok := DoAll([IdentifyJailer], fate, jailer, was);
      assert SPAWN_CALLS == SPAWN_CALLS[..5] + [IdentifyJailer];
      if !ok { assert !fate([IdentifyJailer][0]).Works?; }
    }

    /** The links between the namespace and the host, and what goes over them. */
    method LinkSteps(fate: Call -> Fate, jailer: Call -> set<Obj>, ghost was: set<Obj>) returns (ok: bool)
      requires forall c :: jailer(c) <= {JailDir, Cgroup}
      requires Guarded(was)
      modifies `undo, `objs
      ensures Guarded(was) && undo == old(undo) + [Veth] && old(objs) <= objs
      ensures ok <==> forall call | call in LINK_CALLS :: fate(call).Works?
      ensures ok ==> Veth in objs
    {
      undo := undo + [Veth];
      ok := Do(LinkBatch, {Veth}, fate, jailer);
      if ok {
        ok := DoAll(LINK_CALLS[1..], fate, jailer, was);
        assert LINK_CALLS == [LinkBatch] + LINK_CALLS[1..];
        if !ok { assert exists i :: 0 <= i < 4 && !fate(LINK_CALLS[1..][i]).Works?; }
      }
    }

    /** Kills the VMM if there is one, then unwinds the stack. */
    method Teardown(stuck: set<Obj>)
      requires lives ==> spawned
      modifies this
      ensures undo == [] && !lives
      ensures objs == Unwind(old(objs), old(undo), stuck)
    {
      if spawned {
        lives := false;
      }
      ghost var was, stack := objs, undo;
      while undo != []
        invariant Unwind(objs, undo, stuck) == Unwind(was, stack, stuck)
        invariant !lives
        decreases |undo|
      {
        var step := undo[|undo| - 1];
        undo := undo[..|undo| - 1];
        if step !in stuck {
          objs := objs - {step};
        }
      }
    }

    /** A start succeeds exactly when every one of its calls works, on the host and for the guest; its VMM then runs in
        its namespace, at its link.  One that stops anywhere, its failing step having made its objects or not, leaves what was there before, less
        what its undo steps remove, and a namespace that `ip` half made.  One that succeeds has the whole stack to undo
        it. */
    method Start(fate: Call -> Fate, jailer: Call -> set<Obj>, guestSteps: nat, stuck: set<Obj>) returns (ok: bool)
      requires forall c :: jailer(c) <= {JailDir, Cgroup}
      requires undo == [] && !spawned && !lives && !jailed
      modifies this
      ensures ok <==>
        (forall call | call in HOST_CALLS :: fate(call).Works?) && forall i | 0 <= i < guestSteps :: fate(Guest(i)).Works?
      ensures ok ==> spawned && jailed && old(objs) + {Netns, Veth} <= objs
      ensures ok ==> undo == UNDO_STEPS && lives && forall o | o in objs :: o in undo || o in old(objs)
      ensures !ok ==> !lives && undo == []
      ensures !ok ==> forall o | o !in stuck ::
        o in objs <==> (o in old(objs) && o !in StackOf(fate)) || (o == Netns && fate(AddNetns) == Fails(true))
      ensures !ok ==> forall o | o in stuck && o in old(objs) :: o in objs
      ensures !ok && fate(AddNetns).Works? && Netns in stuck ==> Netns in objs
      ensures fate(AddNetns).Fails? ==> !ok
    {
      assert AddNetns == HOST_CALLS[0];
      ok := HostSteps(fate, jailer);
      if ok {
        var calls := seq(guestSteps, i => Guest(i));
        ok := DoAll(calls, fate, jailer, old(objs));
        assert forall i | 0 <= i < guestSteps :: calls[i] == Guest(i);
      }
      if !ok {
        UnwindRemoves(objs, undo, stuck);
        Teardown(stuck);
      }
    }
  }

  /** A start whose namespace `ip` makes and then fails over leaves it, though every undo step would work. */
  method HalfMadeNamespaceLeft(guestSteps: nat) returns (vm: Vm, ok: bool)
    ensures fresh(vm) && !ok && vm.objs == {Netns} && vm.undo == []
  {
    vm := new Vm.Empty();
    ok := vm.Start(call => if call == AddNetns then Fails(true) else Works, call => {}, guestSteps, {});
  }
}
