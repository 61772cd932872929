/**
 The readiness and interest flags of the two libraries the bridge joins, and
 the two translations dwl/dbus.c performs between them.

 Flags are modelled as sets of named conditions rather than bit masks: the two
 libraries place hangup and error at different bit positions, so the
 translation is a renaming of conditions, not an identity on bits.
 */
module Flags {

  /** The conditions of a wl_event_loop fd mask (WL_EVENT_*). */
  datatype WlEvent = WlReadable | WlWritable | WlHangup | WlError

  /** The conditions of a libdbus watch flag word (DBUS_WATCH_*). */
  datatype BusFlag = BusReadable | BusWritable | BusHangup | BusError

  /** The conditions a watch can ask the host loop to monitor. */
  const InterestEvents: set<WlEvent> := {WlReadable, WlWritable}
  const InterestFlags: set<BusFlag> := {BusReadable, BusWritable}

  /** Reference pairing of the two vocabularies, one condition at a time. */
  function Corresponding(e: WlEvent): BusFlag {
    match e
    case WlReadable => BusReadable
    case WlWritable => BusWritable
    case WlHangup => BusHangup
    case WlError => BusError
  }

  /** The inverse pairing. */
  function HostCondition(f: BusFlag): WlEvent {
    match f
    case BusReadable => WlReadable
    case BusWritable => WlWritable
    case BusHangup => WlHangup
    case BusError => WlError
  }

  /** Flags forwarded to dbus_watch_handle for the mask the host loop reported. */
  function ReadyFlags(mask: set<WlEvent>): (flags: set<BusFlag>)
    ensures BusReadable in flags <==> WlReadable in mask
    ensures BusWritable in flags <==> WlWritable in mask
    ensures BusHangup in flags <==> WlHangup in mask
    ensures BusError in flags <==> WlError in mask
  {
    (if WlReadable in mask then {BusReadable} else {})
    + (if WlWritable in mask then {BusWritable} else {})
    + (if WlHangup in mask then {BusHangup} else {})
    + (if WlError in mask then {BusError} else {})
  }

  /** Host interest mask registered for a watch whose flags are `flags`:
      only readable and writable are requested, hangup and error never. */
  function InterestMask(flags: set<BusFlag>): (mask: set<WlEvent>)
    ensures WlReadable in mask <==> BusReadable in flags
    ensures WlWritable in mask <==> BusWritable in flags
    ensures WlHangup !in mask && WlError !in mask
  {
    (if BusReadable in flags then {WlReadable} else {})
    + (if BusWritable in flags then {WlWritable} else {})
  }

  lemma CorrespondingRoundTrip(e: WlEvent, f: BusFlag)
    ensures HostCondition(Corresponding(e)) == e
    ensures Corresponding(HostCondition(f)) == f
  {
    match e
    case WlReadable =>
    case WlWritable =>
    case WlHangup =>
    case WlError =>
  }

  /** The ready-path translation renames each reported condition and adds nothing. */
  lemma ReadyFlagsIsImage(mask: set<WlEvent>)
    ensures ReadyFlags(mask) == set e | e in mask :: Corresponding(e)
  {
    var image := set e | e in mask :: Corresponding(e);
    forall f: BusFlag
      ensures f in ReadyFlags(mask) <==> f in image
    {
      CorrespondingRoundTrip(HostCondition(f), f);
      if f in image {
        var e :| e in mask && Corresponding(e) == f;
        CorrespondingRoundTrip(e, f);
      }
    }
  }

  /** Distinct host masks are forwarded as distinct flag sets. */
  lemma ReadyFlagsInjective(a: set<WlEvent>, b: set<WlEvent>)
    requires ReadyFlags(a) == ReadyFlags(b)
    ensures a == b
  {
    forall e: WlEvent
      ensures e in a <==> e in b
    {
      match e
      case WlReadable =>
      case WlWritable =>
      case WlHangup =>
      case WlError =>
    }
  }

  /** A watch's interest, once reported back as ready, yields exactly the
      watch's readable/writable flags. */
  lemma InterestThenReady(flags: set<BusFlag>)
    ensures ReadyFlags(InterestMask(flags)) == flags * InterestFlags
  {
    forall f: BusFlag
      ensures f in ReadyFlags(InterestMask(flags)) <==> f in flags * InterestFlags
    {
      match f
      case BusReadable =>
      case BusWritable =>
      case BusHangup =>
      case BusError =>
    }
  }

  /** Registering interest for the flags of a ready mask keeps only its
      readable/writable part. */
  lemma ReadyThenInterest(mask: set<WlEvent>)
    ensures InterestMask(ReadyFlags(mask)) == mask * InterestEvents
  {
    forall e: WlEvent
      ensures e in InterestMask(ReadyFlags(mask)) <==> e in mask * InterestEvents
    {
      match e
      case WlReadable =>
      case WlWritable =>
      case WlHangup =>
      case WlError =>
    }
  }
}
