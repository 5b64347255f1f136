/**
 * The AoE bus's PnP identity responder (`aoe_bus__pnp_id_` in src/aoe/bus.c).
 *
 * The host asks a device for one of its identity strings; the framework hands the responder a
 * caller-owned buffer of 512 wide characters. The responder prints one fixed string into it
 * with `swprintf` and returns the number of characters the framework should take from it.
 */
module AoeBusPnpId {
  import opened Wrappers

  /** Capacity, in wide characters, of the buffer the framework passes in. */
  const IdBufferLength: nat := 512

  /**
   * The query selector. `OtherBusQuery` stands for every other value the host can send
   * (the device serial number, the container ID, or a value outside the enumeration).
   */
  datatype BusQueryIdType =
    | BusQueryDeviceID
    | BusQueryHardwareIDs
    | BusQueryCompatibleIDs
    | BusQueryInstanceID
    | OtherBusQuery(raw: nat)

  const AoeDeviceId: string := "WinVBlock\\AoEDEVID"
  const AoeInstanceId: string := "WinVBlock\\AoEINSTID"
  const AoeHardwareId: string := "WinVBlock\\AoEHWID"
  const AoeCompatibleId: string := "WinVBlock\\AoECOMPATID"

  /** The identity string answered for a query type, if the AoE bus answers it at all. */
  function IdString(q: BusQueryIdType): (s: Option<string>)
    ensures s.Some? <==> !q.OtherBusQuery?
    ensures s.Some? ==> |s.value| + 4 <= IdBufferLength && '\0' !in s.value
  {
    match q
    case BusQueryDeviceID => Some(AoeDeviceId)
    case BusQueryInstanceID => Some(AoeInstanceId)
    case BusQueryHardwareIDs => Some(AoeHardwareId)
    case BusQueryCompatibleIDs => Some(AoeCompatibleId)
    case OtherBusQuery(_) => None
  }

  /** The buffer after `swprintf` has printed `s` (which has no conversion specifier) into `before`. */
  function Printed(before: seq<char>, s: string): (after: seq<char>)
    requires |s| < |before|
    ensures |after| == |before|
    ensures after[..|s|] == s && after[|s|] == '\0'
    ensures forall i :: |s| < i < |before| ==> after[i] == before[i]
  {
    s + ['\0'] + before[|s| + 1..]
  }

  /**
   * The count the responder returns: `swprintf`'s result (the printed length, without the
   * terminator) plus 1, except plus 4 for the compatible IDs; 0 for an unanswered query.
   */
  function ReportedCount(q: BusQueryIdType): nat {
    match IdString(q)
    case None => 0
    case Some(s) => |s| + (if q == BusQueryCompatibleIDs then 4 else 1)
  }

  /** `swprintf(buf, s)` for a format without conversion specifiers. */
  method Swprintf(buf: array<char>, s: string) returns (n: nat)
    requires |s| < buf.Length
    modifies buf
    ensures n == |s|
    ensures buf[..] == Printed(old(buf[..]), s)
  {
    forall i | 0 <= i < |s| {
      buf[i] := s[i];
    }
    buf[|s|] := '\0';
    n := |s|;
  }

  /** The responder: prints the selected identity string and reports its count. */
  method PnpId<D>(dev: D, queryType: BusQueryIdType, buf: array<char>) returns (count: nat)
    requires buf.Length == IdBufferLength
    modifies buf
    ensures count == ReportedCount(queryType)
    ensures match IdString(queryType)
      case None => buf[..] == old(buf[..])
      case Some(id) => buf[..] == Printed(old(buf[..]), id)
  {
    match queryType
    case BusQueryDeviceID =>
      count := Swprintf(buf, AoeDeviceId);
      count := count + 1;
    case BusQueryInstanceID =>
      count := Swprintf(buf, AoeInstanceId);
      count := count + 1;
    case BusQueryHardwareIDs =>
      count := Swprintf(buf, AoeHardwareId);
      count := count + 1;
    case BusQueryCompatibleIDs =>
      count := Swprintf(buf, AoeCompatibleId);
      count := count + 4;
    case OtherBusQuery(_) =>
      count := 0;
  }

  /** The counts the four answered queries report. */
  lemma ReportedCounts()
    ensures ReportedCount(BusQueryDeviceID) == 19
    ensures ReportedCount(BusQueryInstanceID) == 20
    ensures ReportedCount(BusQueryHardwareIDs) == 18
    ensures ReportedCount(BusQueryCompatibleIDs) == 25
  {
  }

  /**
   * For the three single-string queries the reported region is exactly the string and its
   * terminator, and it is never empty exactly when the query is answered.
   */
  lemma SingleIdRegion(q: BusQueryIdType, before: seq<char>)
    requires q != BusQueryCompatibleIDs && IdString(q).Some?
    requires |before| == IdBufferLength
    ensures Printed(before, IdString(q).value)[..ReportedCount(q)] == IdString(q).value + ['\0']
  {
  }

  /** A count of zero means the query was not answered, and conversely. */
  lemma ReportedCountZero(q: BusQueryIdType)
    ensures ReportedCount(q) == 0 <==> IdString(q).None?
  {
  }

  /**
   * The compatible-ID count reaches three characters past the terminator, into characters the
   * responder did not write. When the caller's buffer was zeroed, those characters are NULs, so
   * the reported region is the string followed by four NULs.
   */
  lemma CompatibleIdRegion(before: seq<char>)
    requires |before| == IdBufferLength
    requires forall i :: 0 <= i < |before| ==> before[i] == '\0'
    ensures ReportedCount(BusQueryCompatibleIDs) == |AoeCompatibleId| + 4
    ensures Printed(before, AoeCompatibleId)[..ReportedCount(BusQueryCompatibleIDs)]
            == AoeCompatibleId + ['\0', '\0', '\0', '\0']
  {
  }
}
