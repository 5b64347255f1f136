/**
 * The AoE bus's control-request dispatcher (`aoe_bus__dev_ctl_dispatch_` in src/aoe/bus.c).
 *
 * The dispatcher keeps no state: it maps the control code of an incoming request either to one
 * of the AoE protocol handlers, to the lower device's own control dispatcher (with the code
 * rewritten to a file-detach request), or to an immediate completion with "not supported".
 * `Route` is that routing table as a value; `DevCtlDispatch` runs a route against the
 * collaborators and returns the status they report, unchanged.
 */
module AoeBusDispatch {

  /**
   * A control code. The numeric values of the named codes are defined outside this file;
   * `OtherIoctl` stands for any value that is none of the named ones.
   */
  datatype IoctlCode =
    | IoctlAoeScan
    | IoctlAoeShow
    | IoctlAoeMount
    | IoctlAoeUmount
    | IoctlFileDetach
    | OtherIoctl(raw: nat)

  /** An NTSTATUS, kept as its 32-bit pattern. */
  type NtStatus = bv32

  /** STATUS_NOT_SUPPORTED. */
  const StatusNotSupported: NtStatus := 0xC000_00BB

  /** The three AoE protocol handlers the bus delegates to. */
  datatype Handler = AoeScan | AoeShow | AoeMount

  /** What the dispatcher does with one request. */
  datatype Action<D, I> =
      /** Call a protocol handler with the request's own device and IRP. */
    | Delegate(handler: Handler, dev: D, irp: I)
      /** Call the dev_ctl entry of the device below the bus, passing the bus's device and the IRP. */
    | LowerDevCtl(dev: D, irp: I, code: IoctlCode)
      /** Complete the IRP here with the given byte count and status. */
    | CompleteIrp(irp: I, information: nat, status: NtStatus)

  /** The codes the AoE bus handles itself. */
  predicate Supported(code: IoctlCode) {
    code.IoctlAoeScan? || code.IoctlAoeShow? || code.IoctlAoeMount? || code.IoctlAoeUmount?
  }

  /** The code each protocol handler serves. */
  function CodeOf(h: Handler): (code: IoctlCode)
    ensures Supported(code) && code != IoctlAoeUmount
  {
    match h
    case AoeScan => IoctlAoeScan
    case AoeShow => IoctlAoeShow
    case AoeMount => IoctlAoeMount
  }

  /** The routing table of the dispatcher's `switch`. */
  function Route<D(==), I(==)>(dev: D, irp: I, code: IoctlCode): (a: Action<D, I>)
    ensures a.irp == irp
    ensures a.Delegate? ==> a.dev == dev && CodeOf(a.handler) == code
    ensures a.LowerDevCtl? <==> code == IoctlAoeUmount
    ensures a.LowerDevCtl? ==> a.dev == dev && a.code == IoctlFileDetach
    ensures a.CompleteIrp? <==> !Supported(code)
    ensures a.CompleteIrp? ==> a.information == 0 && a.status == StatusNotSupported
  {
    match code
    case IoctlAoeScan => Delegate(AoeScan, dev, irp)
    case IoctlAoeShow => Delegate(AoeShow, dev, irp)
    case IoctlAoeMount => Delegate(AoeMount, dev, irp)
    case IoctlAoeUmount => LowerDevCtl(dev, irp, IoctlFileDetach)
    case _ => CompleteIrp(irp, 0, StatusNotSupported)
  }

  /** Every protocol handler is reached through exactly its own code. */
  lemma RouteReachesHandler<D, I>(dev: D, irp: I, h: Handler, code: IoctlCode)
    ensures Route(dev, irp, code) == Delegate(h, dev, irp) <==> code == CodeOf(h)
  {
  }

  /**
   * The collaborators the dispatcher calls: the three AoE protocol handlers and the dev_ctl
   * entry point of the device beneath the bus's device. Each returns the status of the request.
   */
  datatype Collaborators<-D, -I> = Collaborators(
    scan: (D, I) -> NtStatus,
    show: (D, I) -> NtStatus,
    mount: (D, I) -> NtStatus,
    lowerDevCtl: (D, I, IoctlCode) -> NtStatus)

  /** The status of carrying out an action; completing the IRP here reports the completion status. */
  function Perform<D, I>(c: Collaborators<D, I>, a: Action<D, I>): NtStatus {
    match a
    case Delegate(h, dev, irp) =>
      (match h
       case AoeScan => c.scan(dev, irp)
       case AoeShow => c.show(dev, irp)
       case AoeMount => c.mount(dev, irp))
    case LowerDevCtl(dev, irp, code) => c.lowerDevCtl(dev, irp, code)
    case CompleteIrp(_, _, status) => status
  }

  /** The dispatcher: the chosen collaborator's status is returned as it is. */
  function DevCtlDispatch<D(==), I(==)>(c: Collaborators<D, I>, dev: D, irp: I, code: IoctlCode): (status: NtStatus)
    ensures code == IoctlAoeScan ==> status == c.scan(dev, irp)
    ensures code == IoctlAoeShow ==> status == c.show(dev, irp)
    ensures code == IoctlAoeMount ==> status == c.mount(dev, irp)
    ensures code == IoctlAoeUmount ==> status == c.lowerDevCtl(dev, irp, IoctlFileDetach)
    ensures !Supported(code) ==> status == StatusNotSupported
  {
    Perform(c, Route(dev, irp, code))
  }

  /** An unmount request never reaches the lower device under its own code. */
  lemma UmountIsTranslated<D, I>(dev: D, irp: I, code: IoctlCode)
    requires Route(dev, irp, code).LowerDevCtl?
    ensures Route(dev, irp, code).code != code
  {
  }
}
