/**
 * MidiOutManager: binds to the external MIDI port named "loopMIDI Port 2"
 * (first case-insensitive match among the enumerated devices), falls back to
 * the default receiver, and forwards note on/off messages to whatever
 * receiver it ended up with, dropping them silently when there is none.
 */
module MidiOut {
  import opened Wrappers
  import opened JavaStrings
  import opened Midi

  const CONNECTED_DEVICE_NAME: string := "loopMIDI Port 2"

  /** The index of the first name equal to target ignoring case, if any. */
  function FirstMatch(names: seq<string>, target: string): (r: Option<nat>)
    ensures r.Some? ==> r.value < |names| && EqualsIgnoreCase(names[r.value], target)
    ensures r.Some? ==> forall j :: 0 <= j < r.value ==> !EqualsIgnoreCase(names[j], target)
    ensures r.None? <==> forall j :: 0 <= j < |names| ==> !EqualsIgnoreCase(names[j], target)
  {
    if names == [] then None
    else if EqualsIgnoreCase(names[0], target) then Some(0)
    else
      match FirstMatch(names[1..], target)
      case None => None
      case Some(k) => Some(k + 1)
  }

  /** The constructor's scan over the device infos: the first device whose
      name matches the configured port, scanning no further once found. */
  method ScanDevices(names: seq<string>) returns (found: Option<nat>)
    ensures found == FirstMatch(names, CONNECTED_DEVICE_NAME)
  {
    var i := 0;
    while i < |names|
      invariant 0 <= i <= |names|
      invariant forall j :: 0 <= j < i ==> !EqualsIgnoreCase(names[j], CONNECTED_DEVICE_NAME)
    {
      if EqualsIgnoreCase(names[i], CONNECTED_DEVICE_NAME) {
        return Some(i);
      }
      i := i + 1;
    }
    return None;
  }

  /** "LOOPMIDI PORT 2" is taken for the configured port, "loopMIDI Port 1"
      is not. */
  lemma ConnectedNameMatchesIgnoringCase()
    ensures EqualsIgnoreCase("LOOPMIDI PORT 2", CONNECTED_DEVICE_NAME)
    ensures !EqualsIgnoreCase("loopMIDI Port 1", CONNECTED_DEVICE_NAME)
  {
    assert ToUpperAscii("loopMIDI Port 1"[14]) != ToUpperAscii(CONNECTED_DEVICE_NAME[14]);
  }

  /** The receiver construction ends with; None stands for a null receiver. */
  function SelectReceiver(env: DeviceEnv): (receiver: Option<Receiver>)
  {
    match env.deviceNames
    case None => None
    case Some(names) =>
      match FirstMatch(names, CONNECTED_DEVICE_NAME)
      case Some(i) => if env.deviceOpens then Some(DeviceReceiver(i)) else None
      case None => if env.defaultReceiverAvailable then Some(DefaultReceiver) else None
  }

  /** A device receiver is only ever that of the first device named like the
      configured port; a matching device that fails to open leaves no
      receiver at all (neither a later match nor the default is tried). */
  lemma SelectedDeviceIsFirstMatch(env: DeviceEnv)
    ensures SelectReceiver(env).Some? && SelectReceiver(env).value.DeviceReceiver? ==>
      var i := SelectReceiver(env).value.device;
      env.deviceNames.Some? && i < |env.deviceNames.value| &&
      EqualsIgnoreCase(env.deviceNames.value[i], CONNECTED_DEVICE_NAME) &&
      forall j :: 0 <= j < i ==> !EqualsIgnoreCase(env.deviceNames.value[j], CONNECTED_DEVICE_NAME)
    ensures (env.deviceNames.Some? && FirstMatch(env.deviceNames.value, CONNECTED_DEVICE_NAME).Some? &&
             !env.deviceOpens) ==> SelectReceiver(env).None?
  {
  }

  /** The default receiver is used exactly when the enumeration succeeded,
      no name matched, and the platform has a default receiver. */
  lemma FallbackToDefault(env: DeviceEnv)
    ensures SelectReceiver(env) == Some(DefaultReceiver) <==>
      env.deviceNames.Some? && env.defaultReceiverAvailable &&
      forall j :: 0 <= j < |env.deviceNames.value| ==> !EqualsIgnoreCase(env.deviceNames.value[j], CONNECTED_DEVICE_NAME)
  {
  }

  /** A failing enumeration leaves the receiver unset. */
  lemma EnumerationFailureLeavesNoReceiver(env: DeviceEnv)
    ensures env.deviceNames.None? ==> SelectReceiver(env).None?
  {
  }

  /** What reaches the runtime when a message is sent: the message, unchanged
      and timestamped -1, if there is a receiver; nothing otherwise. */
  function Delivery(receiver: Option<Receiver>, msg: ShortMessage): (events: seq<Event>)
  {
    if receiver.Some? then [Sent(receiver.value, msg, IMMEDIATE)] else []
  }

  /** A send delivers at most one event, exactly one when a receiver exists,
      and it carries the message as given. */
  lemma DeliveryForwardsUnchanged(receiver: Option<Receiver>, msg: ShortMessage)
    ensures |Delivery(receiver, msg)| == (if receiver.Some? then 1 else 0)
    ensures forall e :: e in Delivery(receiver, msg) ==>
      e.Sent? && e.short == msg && e.timestamp == IMMEDIATE && Some(e.receiver) == receiver
  {
  }

  class MidiOutManager {
    const rt: Runtime
    /** None is a null receiver: nothing was found or opened. */
    const receiver: Option<Receiver>

    /** Enumerates the devices, binds to the first one named like the
        configured port, or else to the default receiver; every failure is
        caught and leaves the receiver unset. */
    constructor (rt: Runtime)
      ensures this.rt == rt && receiver == SelectReceiver(rt.devices)
    {
      this.rt := rt;
      match rt.devices.deviceNames
      case None =>
        receiver := None;
      case Some(names) =>
        var found := ScanDevices(names);
        match found
        case Some(i) =>
          receiver := if rt.devices.deviceOpens then Some(DeviceReceiver(i)) else None;
        case None =>
          receiver := if rt.devices.defaultReceiverAvailable then Some(DefaultReceiver) else None;
    }

    method SendNoteOn(channel: int, note: int, velocity: int)
      modifies rt`trace
      ensures rt.trace == old(rt.trace) + Delivery(receiver, ShortMessage(NOTE_ON, channel, note, velocity))
    {
      SendShortMessage(NOTE_ON, channel, note, velocity);
    }

    method SendNoteOff(channel: int, note: int, velocity: int)
      modifies rt`trace
      ensures rt.trace == old(rt.trace) + Delivery(receiver, ShortMessage(NOTE_OFF, channel, note, velocity))
    {
      SendShortMessage(NOTE_OFF, channel, note, velocity);
    }

    /** Builds the message and hands it to the receiver for immediate
        delivery; with a null receiver the failure is swallowed and the
        message is lost. */
    method SendShortMessage(command: int, channel: int, data1: int, data2: int)
      modifies rt`trace
      ensures rt.trace == old(rt.trace) + Delivery(receiver, ShortMessage(command, channel, data1, data2))
    {
      var msg := ShortMessage(command, channel, data1, data2);
      match receiver
      case Some(r) =>
        rt.trace := rt.trace + [Sent(r, msg, IMMEDIATE)];
      case None =>
    }
  }

  /** The static part of MidiOutManager: the lazily created instance. */
  class MidiOutRegistry {
    const rt: Runtime
    var instance: MidiOutManager?

    ghost predicate Valid()
      reads this
    {
      instance != null ==> instance.rt == rt && instance.receiver == SelectReceiver(rt.devices)
    }

    constructor (rt: Runtime)
      ensures this.rt == rt && instance == null && Valid()
    {
      this.rt := rt;
      instance := null;
    }

    /** Creates the instance on first use; from then on always returns it. */
    method GetInstance() returns (m: MidiOutManager)
      requires Valid()
      modifies this`instance
      ensures Valid() && instance == m
      ensures old(instance) != null ==> m == old(instance)
      ensures old(instance) == null ==> fresh(m)
      ensures m.rt == rt && m.receiver == SelectReceiver(rt.devices)
    {
      if instance == null {
        instance := new MidiOutManager(rt);
      }
      m := instance;
    }
  }
}
