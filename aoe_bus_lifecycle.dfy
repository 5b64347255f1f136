/**
 * The AoE bus lifecycle (`aoe_bus__create`, `aoe_bus__free` and the global slot `aoe_bus` in
 * src/aoe/bus.c).
 *
 * The first half states the lifecycle on values: a `Manager` is the slot together with a log of
 * the calls the bus made into the framework and the kernel, and `CreateSpec` / `FreeSpec` say
 * what one call does to it. Lemmas then prove what holds over any series of calls: only one bus
 * is ever published, the framework never sees a half-initialised bus, nothing allocated leaks,
 * and, when free runs at most once, no device is freed twice.
 *
 * The second half, class `AoeBusManager`, is the imperative code: it tests and sets the slot,
 * writes the fields of the freshly allocated bus, and unwinds on failure; each of its methods is
 * proved to act on its state exactly as the corresponding specification function says.
 *
 * The framework's answers (whether `bus__create` and `bus__add_child` succeed) are inputs.
 * `create` and `free` are called one at a time; the source takes no lock around the slot.
 */
module AoeBusLifecycle {
  import opened Wrappers

  /** The name given to the bus's device object. */
  const DeviceName: string := "\\Device\\AoE"

  /** The DOS-visible alias of the bus. */
  const DosDeviceName: string := "\\DosDevices\\AoE"

  /** The routine in the device's PnP-ID callback slot (`device->ops.pnp_id`). */
  datatype PnpIdHandler = FrameworkPnpId | AoeBusPnpId

  /** What the framework can see of a bus: its device and the fields `create` sets. */
  datatype BusRecord<D> = BusRecord(
    device: D,
    pnpId: PnpIdHandler,
    devName: string,
    dosDevName: string,
    named: bool)

  /** A bus with the AoE callback installed and both names set. */
  predicate Initialised<D>(b: BusRecord<D>) {
    b.pnpId == AoeBusPnpId && b.devName == DeviceName && b.dosDevName == DosDeviceName && b.named
  }

  /** The bus `create` builds around a freshly allocated device. */
  function AoeBusOn<D>(d: D): BusRecord<D> {
    BusRecord(d, AoeBusPnpId, DeviceName, DosDeviceName, true)
  }

  /** One call from the AoE bus into the framework or the kernel. */
  datatype Event<D> =
      /** `bus__create` returned a new bus with this device. */
    | BusAllocated(device: D)
      /** `bus__add_child(driver__bus(), ...)`, with the bus as the parent saw it, and its answer. */
    | ChildRegistration(bus: BusRecord<D>, accepted: bool)
      /** `bus__remove_child(driver__bus(), ...)`; the AoE bus never makes this call. */
    | ChildRemoved(device: D)
      /** `IoDeleteSymbolicLink` of the named link. */
    | SymlinkDeleted(name: string)
      /** `IoDeleteDevice` of the device's kernel object. */
    | DeviceDeleted(device: D)
      /** `device__free`. */
    | DeviceFreed(device: D)

  /** The global slot and everything the AoE bus has asked of the framework and kernel so far. */
  datatype Manager<D> = Manager(slot: Option<BusRecord<D>>, log: seq<Event<D>>)

  /** The state at driver load: the slot is NULL and nothing has been called. */
  function Boot<D>(): Manager<D> {
    Manager(None, [])
  }

  datatype CreateResult<D> = CreateResult(ok: bool, after: Manager<D>)

  /**
   * `aoe_bus__create`. `alloc` is what `bus__create` answers if it is called (None for NULL);
   * `addChildOk` is what `bus__add_child` answers if it is called.
   */
  function CreateSpec<D>(m: Manager<D>, alloc: Option<D>, addChildOk: bool): (r: CreateResult<D>)
    // TRUE exactly when the slot was empty and both framework calls succeeded
    ensures r.ok <==> m.slot.None? && alloc.Some? && addChildOk
    // a refused call, or one whose allocation failed, changes nothing and calls nothing more
    ensures m.slot.Some? || alloc.None? ==> r.after == m
    // the slot is written only on success, and then with the new, fully initialised bus
    ensures r.ok ==> r.after.slot.Some? && r.after.slot.value.device == alloc.value
                     && Initialised(r.after.slot.value)
    ensures !r.ok ==> r.after.slot == m.slot
    // the calls made: allocate, register the named bus, and on refusal free that same device
    ensures m.slot.None? && alloc.Some? ==>
      r.after.log == m.log + [BusAllocated(alloc.value), ChildRegistration(AoeBusOn(alloc.value), addChildOk)]
                           + (if addChildOk then [] else [DeviceFreed(alloc.value)])
  {
    if m.slot.Some? then
      CreateResult(false, m)
    else
      match alloc
      case None => CreateResult(false, m)
      case Some(d) =>
        var bus := AoeBusOn(d);
        var log := m.log + [BusAllocated(d), ChildRegistration(bus, addChildOk)];
        if addChildOk then CreateResult(true, Manager(Some(bus), log))
        else CreateResult(false, Manager(None, log + [DeviceFreed(d)]))
  }

  /** The teardown `free` performs on a published bus, in order. */
  function Teardown<D>(b: BusRecord<D>): seq<Event<D>> {
    [SymlinkDeleted(b.dosDevName), SymlinkDeleted(b.devName), DeviceDeleted(b.device), DeviceFreed(b.device)]
  }

  /** `aoe_bus__free`. */
  function FreeSpec<D>(m: Manager<D>): (r: Manager<D>)
    // the slot is never cleared
    ensures r.slot == m.slot
    // with an empty slot nothing happens
    ensures m.slot.None? ==> r == m
    // otherwise: both links, then the kernel device, then the framework device
    ensures m.slot.Some? ==> r.log == m.log + Teardown(m.slot.value)
  {
    match m.slot
    case None => m
    case Some(b) => Manager(m.slot, m.log + Teardown(b))
  }

  /** Free never detaches the bus from its parent and never registers anything. */
  lemma FreeNeverDetaches<D>(m: Manager<D>, i: nat)
    requires |m.log| <= i < |FreeSpec(m).log|
    ensures !FreeSpec(m).log[i].ChildRemoved? && !FreeSpec(m).log[i].ChildRegistration?
  {
  }

  /** Once a create has succeeded, a free does not make room for another. */
  lemma CreateAfterFreeRefused<D>(m: Manager<D>, d: D, alloc: Option<D>, addChildOk: bool)
    requires CreateSpec(m, Some(d), true).ok
    ensures !CreateSpec(FreeSpec(CreateSpec(m, Some(d), true).after), alloc, addChildOk).ok
  {
  }

  /** Because the slot is never cleared, a second free tears the same device down again. */
  lemma SecondFreeFreesAgain<D>(m: Manager<D>)
    requires m.slot.Some?
    ensures var d := m.slot.value.device;
            multiset(FreeSpec(FreeSpec(m)).log)[DeviceFreed(d)] == multiset(m.log)[DeviceFreed(d)] + 2
  {
  }

  /* ----------------------------------------------------------------------------------------
   * The invariant every reachable state keeps.
   * ---------------------------------------------------------------------------------------- */

  /** How many registrations the parent bus accepted. */
  function Accepted<D>(log: seq<Event<D>>): nat {
    if log == [] then 0
    else (if log[0].ChildRegistration? && log[0].accepted then 1 else 0) + Accepted(log[1..])
  }

  lemma {:induction false} AcceptedAppend<D>(a: seq<Event<D>>, b: seq<Event<D>>)
    ensures Accepted(a + b) == Accepted(a) + Accepted(b)
  {
    if a != [] {
      assert (a + b)[0] == a[0];
      assert (a + b)[1..] == a[1..] + b;
      AcceptedAppend(a[1..], b);
    } else {
      assert a + b == b;
    }
  }

  ghost predicate Consistent<D>(m: Manager<D>) {
    // the parent bus was only ever offered a fully initialised AoE bus
    (forall i :: 0 <= i < |m.log| && m.log[i].ChildRegistration? ==> Initialised(m.log[i].bus)) &&
    // singleton: the parent accepted one AoE bus exactly when the slot holds one, and never two
    Accepted(m.log) == (if m.slot.Some? then 1 else 0) &&
    (m.slot.Some? ==> Initialised(m.slot.value)
                      && BusAllocated(m.slot.value.device) in m.log
                      && ChildRegistration(m.slot.value, true) in m.log) &&
    // no leak: every allocated device is the published bus's device or has been freed
    (forall i :: 0 <= i < |m.log| && m.log[i].BusAllocated? ==>
       (m.slot.Some? && m.slot.value.device == m.log[i].device) || DeviceFreed(m.log[i].device) in m.log)
  }

  lemma BootConsistent<D>()
    ensures Consistent(Boot<D>())
  {
  }

  lemma CreateKeepsConsistent<D>(m: Manager<D>, alloc: Option<D>, addChildOk: bool)
    requires Consistent(m)
    ensures Consistent(CreateSpec(m, alloc, addChildOk).after)
  {
    if m.slot.None? && alloc.Some? {
      var d := alloc.value;
      var suffix := [BusAllocated(d), ChildRegistration(AoeBusOn(d), addChildOk)]
                    + (if addChildOk then [] else [DeviceFreed(d)]);
      var after := CreateSpec(m, alloc, addChildOk).after;
      assert after.log == m.log + suffix;
      AcceptedAppend(m.log, suffix);
      assert Accepted(suffix) == (if addChildOk then 1 else 0) by {
        var rest := if addChildOk then [] else [DeviceFreed(d)];
        assert suffix[1..][1..] == rest;
        assert Accepted(rest) == 0 by {
          if !addChildOk { assert rest[1..] == []; }
        }
      }
      forall i | 0 <= i < |after.log| && after.log[i].BusAllocated?
        ensures (after.slot.Some? && after.slot.value.device == after.log[i].device)
                || DeviceFreed(after.log[i].device) in after.log
      {
        if i < |m.log| {
          assert after.log[i] == m.log[i];
          assert DeviceFreed(m.log[i].device) in m.log;
        } else if !addChildOk {
          assert after.log[|after.log| - 1] == DeviceFreed(d);
        }
      }
    }
  }

  lemma FreeKeepsConsistent<D>(m: Manager<D>)
    requires Consistent(m)
    ensures Consistent(FreeSpec(m))
  {
    if m.slot.Some? {
      var t := Teardown(m.slot.value);
      AcceptedAppend(m.log, t);
      assert Accepted(t) == 0 by {
        assert t[1..][1..][1..][1..] == [];
        assert Accepted(t[1..][1..][1..]) == 0;
        assert Accepted(t[1..][1..]) == 0;
      }
      var after := FreeSpec(m);
      forall i | 0 <= i < |after.log| && after.log[i].BusAllocated?
        ensures (after.slot.Some? && after.slot.value.device == after.log[i].device)
                || DeviceFreed(after.log[i].device) in after.log
      {
        assert after.log[i] == m.log[i];
      }
    }
  }

  /* ----------------------------------------------------------------------------------------
   * Series of calls.
   * ---------------------------------------------------------------------------------------- */

  /** One call to the lifecycle with the framework's answers to it. */
  datatype Call<D> = CreateCall(alloc: Option<D>, addChildOk: bool) | FreeCall

  function Step<D>(m: Manager<D>, c: Call<D>): Manager<D> {
    match c
    case CreateCall(alloc, addChildOk) => CreateSpec(m, alloc, addChildOk).after
    case FreeCall => FreeSpec(m)
  }

  function Run<D>(m: Manager<D>, calls: seq<Call<D>>): Manager<D>
    decreases |calls|
  {
    if calls == [] then m else Run(Step(m, calls[0]), calls[1..])
  }

  /** How many of the calls are creates that return TRUE. */
  function Successes<D>(m: Manager<D>, calls: seq<Call<D>>): nat
    decreases |calls|
  {
    if calls == [] then 0
    else
      (if calls[0].CreateCall? && CreateSpec(m, calls[0].alloc, calls[0].addChildOk).ok then 1 else 0)
      + Successes(Step(m, calls[0]), calls[1..])
  }

  /** Singleton: over any series of calls, at most one create succeeds, and none once the slot is set. */
  lemma {:induction false} RunSingleton<D>(m: Manager<D>, calls: seq<Call<D>>)
    ensures Successes(m, calls) <= (if m.slot.None? then 1 else 0)
    ensures m.slot.Some? ==> Run(m, calls).slot == m.slot
    decreases |calls|
  {
    if calls != [] {
      RunSingleton(Step(m, calls[0]), calls[1..]);
    }
  }

  lemma {:induction false} RunKeepsConsistent<D>(m: Manager<D>, calls: seq<Call<D>>)
    requires Consistent(m)
    ensures Consistent(Run(m, calls))
    decreases |calls|
  {
    if calls != [] {
      match calls[0] {
        case CreateCall(alloc, addChildOk) => CreateKeepsConsistent(m, alloc, addChildOk);
        case FreeCall => FreeKeepsConsistent(m);
      }
      RunKeepsConsistent(Step(m, calls[0]), calls[1..]);
    }
  }

  /* ----------------------------------------------------------------------------------------
   * Each device is freed at most once, provided free runs at most once.
   * ---------------------------------------------------------------------------------------- */

  /** Every freed device was allocated, and none was freed twice. */
  ghost predicate FreedAtMostOnce<D>(log: seq<Event<D>>) {
    forall i :: 0 <= i < |log| && log[i].DeviceFreed? ==>
      BusAllocated(log[i].device) in log && multiset(log)[log[i]] == 1
  }

  /** The published bus has been torn down. */
  ghost predicate TornDown<D>(m: Manager<D>) {
    m.slot.Some? && DeviceFreed(m.slot.value.device) in m.log
  }

  /** The framework never hands out a device it allocated before. */
  ghost predicate FreshAllocations<D>(m: Manager<D>, calls: seq<Call<D>>)
    decreases |calls|
  {
    calls == [] ||
    ((calls[0].CreateCall? && calls[0].alloc.Some? ==> BusAllocated(calls[0].alloc.value) !in m.log)
     && FreshAllocations(Step(m, calls[0]), calls[1..]))
  }

  function FreeCalls<D>(calls: seq<Call<D>>): nat {
    if calls == [] then 0 else (if calls[0].FreeCall? then 1 else 0) + FreeCalls(calls[1..])
  }

  /** Create, given a device never allocated before, frees no device twice and tears nothing down. */
  lemma CreateFreesOnce<D>(m: Manager<D>, alloc: Option<D>, addChildOk: bool)
    requires Consistent(m) && FreedAtMostOnce(m.log)
    requires alloc.Some? ==> BusAllocated(alloc.value) !in m.log
    ensures FreedAtMostOnce(CreateSpec(m, alloc, addChildOk).after.log)
    ensures !TornDown(CreateSpec(m, alloc, addChildOk).after) || TornDown(m)
  {
  }

  /** The first free of the published bus frees its device once. */
  lemma FreeFreesOnce<D>(m: Manager<D>)
    requires Consistent(m) && FreedAtMostOnce(m.log) && !TornDown(m)
    ensures FreedAtMostOnce(FreeSpec(m).log)
  {
  }

  lemma {:induction false} RunFreesEachDeviceOnce<D>(m: Manager<D>, calls: seq<Call<D>>)
    requires Consistent(m) && FreedAtMostOnce(m.log)
    requires FreshAllocations(m, calls)
    requires FreeCalls(calls) + (if TornDown(m) then 1 else 0) <= 1
    ensures FreedAtMostOnce(Run(m, calls).log)
    decreases |calls|
  {
    if calls != [] {
      var next := Step(m, calls[0]);
      match calls[0] {
        case CreateCall(alloc, addChildOk) =>
          CreateFreesOnce(m, alloc, addChildOk);
          CreateKeepsConsistent(m, alloc, addChildOk);
        case FreeCall =>
          FreeFreesOnce(m);
          FreeKeepsConsistent(m);
      }
      RunFreesEachDeviceOnce(next, calls[1..]);
    }
  }

  /**
   * From driver load, with create and free each called in any order and free at most once:
   * at most one create succeeds, every state is consistent, and no device is freed twice.
   */
  lemma FromBoot<D>(calls: seq<Call<D>>)
    requires FreshAllocations(Boot(), calls)
    requires FreeCalls(calls) <= 1
    ensures Successes(Boot(), calls) <= 1
    ensures Consistent(Run(Boot(), calls))
    ensures FreedAtMostOnce(Run(Boot(), calls).log)
  {
    RunSingleton(Boot(), calls);
    RunKeepsConsistent(Boot(), calls);
    RunFreesEachDeviceOnce(Boot(), calls);
  }

  /* ----------------------------------------------------------------------------------------
   * The imperative code.
   * ---------------------------------------------------------------------------------------- */

  /** The framework's device record; only its PnP-ID callback slot matters here. */
  class Device {
    var pnpId: PnpIdHandler

    constructor ()
      ensures pnpId == FrameworkPnpId
    {
      pnpId := FrameworkPnpId;
    }
  }

  /** The framework's bus record, wrapped around the device it was allocated with. */
  class Bus {
    const device: Device
    var devName: string
    var dosDevName: string
    var named: bool

    constructor (device: Device)
      ensures this.device == device
      ensures devName == [] && dosDevName == [] && !named
    {
      this.device := device;
      devName, dosDevName, named := [], [], false;
    }
  }

  /** The bus as the framework sees it at this moment. */
  function Snapshot(b: Bus): BusRecord<Device>
    reads b, b.device
  {
    BusRecord(b.device, b.device.pnpId, b.devName, b.dosDevName, b.named)
  }

  /** The globals of the AoE bus: the slot `aoe_bus`, and the log of framework and kernel calls. */
  class AoeBusManager {
    var aoeBus: Bus?
    ghost var log: seq<Event<Device>>

    ghost function Model(): Manager<Device>
      reads this, aoeBus, if aoeBus == null then {} else {aoeBus.device}
    {
      Manager(if aoeBus == null then None else Some(Snapshot(aoeBus)), log)
    }

    ghost predicate Valid()
      reads this, aoeBus, if aoeBus == null then {} else {aoeBus.device}
    {
      Consistent(Model())
    }

    /** Driver load: the slot starts out NULL. */
    constructor ()
      ensures Valid() && Model() == Boot()
    {
      aoeBus := null;
      log := [];
    }

    /** `bus__create`: a fresh bus and device, or NULL. */
    method BusCreate(succeeds: bool) returns (b: Bus?)
      modifies this`log
      ensures succeeds <==> b != null
      ensures b != null ==> fresh(b) && fresh(b.device) && log == old(log) + [BusAllocated(b.device)]
      ensures b == null ==> log == old(log)
    {
      b := null;
      if succeeds {
        var d := new Device();
        b := new Bus(d);
        log := log + [BusAllocated(d)];
      }
    }

    /** `bus__add_child(driver__bus(), b->device)`, answering `accept`. */
    method AddChild(b: Bus, accept: bool) returns (added: bool)
      modifies this`log
      ensures added == accept
      ensures log == old(log) + [ChildRegistration(Snapshot(b), accept)]
    {
      log := log + [ChildRegistration(Snapshot(b), accept)];
      added := accept;
    }

    /** `device__free`. */
    method DeviceFree(d: Device)
      modifies this`log
      ensures log == old(log) + [DeviceFreed(d)]
    {
      log := log + [DeviceFreed(d)];
    }

    /** `IoDeleteSymbolicLink`. */
    method DeleteSymbolicLink(name: string)
      modifies this`log
      ensures log == old(log) + [SymlinkDeleted(name)]
    {
      log := log + [SymlinkDeleted(name)];
    }

    /** `IoDeleteDevice` of the device's kernel object. */
    method DeleteDevice(d: Device)
      modifies this`log
      ensures log == old(log) + [DeviceDeleted(d)]
    {
      log := log + [DeviceDeleted(d)];
    }

    /**
     * `aoe_bus__create`. `alloc` names the device `bus__create` returned, if it was called and
     * succeeded; the result is TRUE for success.
     */
    method Create(allocSucceeds: bool, addChildSucceeds: bool) returns (ok: bool, ghost alloc: Option<Device>)
      requires Valid()
      modifies this
      ensures Valid()
      ensures alloc.Some? <==> old(aoeBus) == null && allocSucceeds
      ensures alloc.Some? ==> fresh(alloc.value)
      ensures ok == CreateSpec(old(Model()), alloc, addChildSucceeds).ok
      ensures Model() == CreateSpec(old(Model()), alloc, addChildSucceeds).after
      ensures ok ==> fresh(aoeBus)
    {
      alloc := None;
      if aoeBus != null {
        return false, alloc;
      }
      var newBus := BusCreate(allocSucceeds);
      if newBus == null {
        return false, alloc;
      }
      alloc := Some(newBus.device);
      newBus.device.pnpId := AoeBusPnpId;
      newBus.devName := DeviceName;
      newBus.dosDevName := DosDeviceName;
      newBus.named := true;
      var added := AddChild(newBus, addChildSucceeds);
      if !added {
        DeviceFree(newBus.device);
        CreateKeepsConsistent(old(Model()), alloc, addChildSucceeds);
        assert Model() == CreateSpec(old(Model()), alloc, addChildSucceeds).after;
        return false, alloc;
      }
      aoeBus := newBus;
      ok := true;
      CreateKeepsConsistent(old(Model()), alloc, addChildSucceeds);
      assert Model() == CreateSpec(old(Model()), alloc, addChildSucceeds).after;
    }

    /** `aoe_bus__free`. */
    method Free()
      requires Valid()
      modifies this`log
      ensures Valid()
      ensures Model() == FreeSpec(old(Model()))
    {
      if aoeBus == null {
        return;
      }
      DeleteSymbolicLink(aoeBus.dosDevName);
      DeleteSymbolicLink(aoeBus.devName);
      DeleteDevice(aoeBus.device);
      DeviceFree(aoeBus.device);
      FreeKeepsConsistent(old(Model()));
      assert Model() == FreeSpec(old(Model()));
    }
  }

  /**
   * Two creates in a row on a freshly loaded driver, with the framework succeeding each time:
   * the first publishes the bus and the second is refused.
   */
  method CreateTwice() returns (first: bool, second: bool)
    ensures first && !second
  {
    var globals := new AoeBusManager();
    ghost var alloc;
    first, alloc := globals.Create(true, true);
    second, alloc := globals.Create(true, true);
  }
}
