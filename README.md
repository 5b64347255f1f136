# AoE bus node of WinVBlock, modelled in Dafny

WinVBlock is a Windows kernel driver that presents virtual disks. `src/aoe/bus.c` is its
ATA-over-Ethernet bus node: a single bus device registered as a child of the driver's own bus.
This project models the three parts of that file that have behaviour to state:

- **Lifecycle** (`aoe_bus__create`, `aoe_bus__free`, the global slot `aoe_bus`), in
  `aoe_bus_lifecycle.dfy`, module `AoeBusLifecycle`.
  - `CreateSpec` and `FreeSpec` state one call on a value: a `Manager` holds the slot and a
    ghost log of every call the bus makes into the bus framework and the kernel.
    - `bus__create` is logged as `BusAllocated`.
    - `bus__add_child` is logged as `ChildRegistration`, which records the bus as the parent saw
      it and the parent's answer.
    - `device__free` is logged as `DeviceFreed`.
    - `IoDeleteSymbolicLink` is logged as `SymlinkDeleted`.
    - `IoDeleteDevice` is logged as `DeviceDeleted`.
    - `ChildRemoved` stands for `bus__remove_child`, a call the source never makes.
  - Class `AoeBusManager` is the imperative code. The field `aoeBus` is the slot. `Create`
    writes the fields of the new `Bus` and its `Device` in the source's order. It
    registers the bus, then either publishes it or frees it. `Free` tears the bus down in the
    source's order.
  - Both methods are proved to change the state exactly as `CreateSpec` and `FreeSpec` say.
    They also keep the invariant `Consistent`.
  - Lemmas about series of calls (`Run`) show four things:
    - at most one create ever succeeds;
    - the parent bus is only ever offered a fully named bus with the AoE PnP-ID callback
      installed;
    - every allocated device is either the published one or freed;
    - if free runs at most once and the framework never reuses a device, no device is freed
      twice.
  - Because free never clears the slot, a second free tears the same device down again
    (`SecondFreeFreesAgain`).
- **Control-request dispatcher** (`aoe_bus__dev_ctl_dispatch_`), in `aoe_bus_dispatch.dfy`.
  - `Route` maps a control code to an `Action`:
    - scan, show and mount go to the matching AoE protocol handler;
    - unmount goes to the lower device's dev_ctl with the code rewritten to
      `IOCTL_FILE_DETACH`;
    - every other code completes the IRP with 0 bytes and `STATUS_NOT_SUPPORTED`.
  - `DevCtlDispatch` runs the route against the collaborators and returns their status
    unchanged.
- **PnP identity responder** (`aoe_bus__pnp_id_`), in `aoe_bus_pnp_id.dfy`.
  - `PnpId` prints the identity string into the caller's 512-character array through `Swprintf`.
  - It returns the string's length plus 1. For the compatible IDs it returns the length plus 4.
  - For any other query type it writes nothing and returns 0.

The framework's answers are inputs to the model:
- `allocSucceeds` says whether `bus__create` succeeds.
- `addChildSucceeds` says whether `bus__add_child` succeeds.
- `alloc` is the device `bus__create` hands out.

The protocol handlers and the lower device's dev_ctl are function parameters (`Collaborators`).

The model follows the code where one might expect a fuller design:
- `aoe_bus__create` reports every failure as FALSE. There are no separate error kinds for "already
  exists", "allocation failed" and "registration failed".
- On a failed registration the code does not undo the naming or the callback. It frees the
  device that carries them (src/aoe/bus.c:121-126).
- Free deletes both links, then deletes the kernel device object, then frees the framework
  device. It never detaches the bus from its parent and never clears the slot
  (src/aoe/bus.c:135-141).

## Model

| member | source | states |
|---|---|---|
| `AoeBusLifecycle.CreateSpec` | src/aoe/bus.c:86-127 | Create returns TRUE exactly when the slot was empty and both framework calls succeeded. An occupied slot or a failed allocation changes nothing and makes no further call. The slot is written only on success, and then with the new device, named and with the AoE callback installed. The calls made are: allocate, register the named bus, and on refusal free that same device. |
| `AoeBusLifecycle.FreeSpec` | src/aoe/bus.c:130-143 | Free never changes the slot. With an empty slot it does nothing. Otherwise it deletes the DOS link, then the device link, then the kernel device, then frees the device. |
| `AoeBusLifecycle.FreeNeverDetaches` | src/aoe/bus.c:138-140 | Nothing free adds to the log is a removal from the parent bus or a registration. |
| `AoeBusLifecycle.CreateAfterFreeRefused` | src/aoe/bus.c:86-143 | After a successful create and a free, any further create returns FALSE. |
| `AoeBusLifecycle.SecondFreeFreesAgain` | src/aoe/bus.c:130-143 | Since the slot stays set, two frees free the published device twice. |
| `AoeBusLifecycle.BootConsistent` | src/aoe/bus.c:50 | The load-time state (NULL slot, nothing called) satisfies the invariant. |
| `AoeBusLifecycle.CreateKeepsConsistent` | src/aoe/bus.c:86-127 | Create keeps the invariant. Every registration offered a fully initialised bus. Exactly one accepted registration exists when the slot is set, and none otherwise. Every allocated device is published or freed. |
| `AoeBusLifecycle.FreeKeepsConsistent` | src/aoe/bus.c:130-143 | Free keeps the same invariant. |
| `AoeBusLifecycle.RunSingleton` | src/aoe/bus.c:89-118 | Over any series of creates and frees, at most one create succeeds, and none once the slot is set. A set slot never changes. |
| `AoeBusLifecycle.RunKeepsConsistent` | src/aoe/bus.c:86-143 | Every state reachable by creates and frees satisfies the invariant. |
| `AoeBusLifecycle.CreateFreesOnce` | src/aoe/bus.c:121-126 | With a device the framework has not handed out before, the rollback frees that device once. It frees no device a second time. A bus create publishes is not already torn down. |
| `AoeBusLifecycle.FreeFreesOnce` | src/aoe/bus.c:135-141 | A first free of the published bus frees its device once and frees no device twice. |
| `AoeBusLifecycle.RunFreesEachDeviceOnce` | src/aoe/bus.c:86-143 | If allocations are fresh and free runs at most once, no device is ever freed twice. Every freed device was allocated. |
| `AoeBusLifecycle.FromBoot` | src/aoe/bus.c:50-143 | From driver load, with fresh allocations and at most one free: at most one create succeeds, the invariant holds, and no device is freed twice. |
| `AoeBusLifecycle.AoeBusManager.constructor` | src/aoe/bus.c:50 | The slot starts NULL with nothing logged, and the invariant holds. |
| `AoeBusLifecycle.AoeBusManager.Create` | src/aoe/bus.c:86-127 | The imperative create allocates only when the slot is empty, and then a fresh device. Its result and new state are exactly `CreateSpec` of the old state. It keeps the invariant and publishes a fresh bus on success. |
| `AoeBusLifecycle.CreateTwice` | src/aoe/bus.c:86-119 | On a freshly loaded driver with a framework that always succeeds, a first create returns TRUE and a second one returns FALSE. |
| `AoeBusLifecycle.AoeBusManager.Free` | src/aoe/bus.c:130-143 | The imperative free's new state is exactly `FreeSpec` of the old state, and it keeps the invariant. |
| `AoeBusDispatch.CodeOf` | src/aoe/bus.c:58-65 | Each protocol handler serves one supported code other than unmount. |
| `AoeBusDispatch.Route` | src/aoe/bus.c:57-78 | Every route carries the request's own IRP. A delegation passes the same device and goes to the handler of that code. Only unmount goes to the lower device, with the same device and the code rewritten to file-detach. The IRP is completed here, with 0 bytes and STATUS_NOT_SUPPORTED, exactly for unsupported codes. |
| `AoeBusDispatch.RouteReachesHandler` | src/aoe/bus.c:57-65 | A handler is chosen if and only if the code is that handler's own code. |
| `AoeBusDispatch.UmountIsTranslated` | src/aoe/bus.c:67-73 | A request forwarded to the lower device never carries the code it arrived with. |
| `AoeBusDispatch.DevCtlDispatch` | src/aoe/bus.c:52-79 | The dispatcher returns the status of scan, show or mount for those codes. For unmount it returns the lower device's dev_ctl status on (dev, irp, file-detach). For every other code it returns STATUS_NOT_SUPPORTED. |
| `AoeBusPnpId.IdString` | src/aoe/bus.c:150-165 | Exactly the four known query types are answered. Each answer has no NUL inside and fits in the 512-character buffer with room to spare. |
| `AoeBusPnpId.Printed` | src/aoe/bus.c:152-161 | After printing, the buffer starts with the string and a terminator. The rest is unchanged and the length is the same. |
| `AoeBusPnpId.Swprintf` | src/aoe/bus.c:152-161 | Printing a string without conversions returns its length and leaves the array as `Printed` says. |
| `AoeBusPnpId.PnpId` | src/aoe/bus.c:145-166 | The responder returns `ReportedCount`. For an answered query the buffer holds the string and a terminator, with the rest untouched. For any other query the buffer is unchanged. |
| `AoeBusPnpId.ReportedCounts` | src/aoe/bus.c:151-161 | The counts are 19 for DeviceID, 20 for InstanceID, 18 for HardwareIDs and 25 for CompatibleIDs. |
| `AoeBusPnpId.SingleIdRegion` | src/aoe/bus.c:151-158 | For DeviceID, InstanceID and HardwareIDs, the reported part of the buffer is exactly the string and its terminator. |
| `AoeBusPnpId.ReportedCountZero` | src/aoe/bus.c:163-164 | The count is 0 if and only if the query type is not answered. |
| `AoeBusPnpId.CompatibleIdRegion` | src/aoe/bus.c:160-161 | The CompatibleIDs count reaches three characters past the terminator. On a zeroed buffer, the reported part is the string followed by four NULs. |

## Left out

- Concurrency: the slot is checked and then set without a lock (src/aoe/bus.c:90, 118). The model
  treats create and free as called one at a time, by a single caller.
- `DBG` tracing (src/aoe/bus.c:76, 91, 97, 114) is logging only.
- The internals of the bus framework are not modelled: `bus__create`, `bus__add_child`,
  `device__free`, `driver__bus`, `device__get` and `bus__get`.
  - The calls the AoE bus makes to them are logged events.
  - Their success or failure is an input.
  - The lower device's dev_ctl entry is a function parameter.
- The kernel side is not modelled: IRP internals, `driver__complete_irp`,
  `IoDeleteSymbolicLink`, `IoDeleteDevice` and `RtlInitUnicodeString`. Completing an IRP is the
  `CompleteIrp` action, which carries the byte count and the status.
- The AoE protocol handlers `aoe__scan`, `aoe__show` and `aoe__mount` are opaque collaborators
  whose status is passed through.
- Numeric values of the IOCTL codes and of the PnP query types are defined outside this file.
  - The codes are distinct constructors.
  - `OtherIoctl` and `OtherBusQuery` stand for every value that is not named.
- Wide characters are Dafny `char`s. Only literal strings without conversion specifiers are
  printed, so general `swprintf` formatting is not modelled.
- Swprintf: requires the string and its terminator to fit in the array; the C routine does not
  check this. Every string the responder prints fits (`IdString`).
- AoeBusLifecycle.AoeBusManager.Create: its contract does not state the at-most-once freeing
  of devices. That property is proved on `CreateSpec` over series of calls
  (`RunFreesEachDeviceOnce`).
- AoeBusLifecycle.AoeBusManager.Free: its contract does not state the at-most-once freeing of
  devices either. That property is proved on `FreeSpec` over series of calls.
- Memory: freeing is a logged event. Dafny objects are never reclaimed, so a use after free is
  not modelled beyond the log.
