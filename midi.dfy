/**
 * The platform MIDI runtime (javax.sound.midi) seen as an opaque collaborator.
 * Everything the wrapper does to it is recorded, in order, in the runtime's
 * event trace; what the runtime reports back (enumerated devices, whether a
 * device or the sequencer opens) is fixed when the runtime is created.
 */
module Midi {
  import opened Wrappers

  /** Status bytes of javax.sound.midi.ShortMessage. */
  const NOTE_OFF: int := 0x80
  const NOTE_ON: int := 0x90

  /** A timestamp of -1 asks the receiver to deliver at once. */
  const IMMEDIATE: int := -1

  /** What a MidiChannel of the synthesizer is asked to do. */
  datatype ChannelMessage =
    | NoteOn(pitch: int, velocity: int)
    | NoteOff(pitch: int, velocity: int)
    | ControlChange(controller: int, value: int)
    | ProgramChange(program: int)

  /** The arguments of ShortMessage.setMessage(command, channel, data1, data2). */
  datatype ShortMessage = ShortMessage(command: int, channel: int, data1: int, data2: int)

  /** The receiver the external output is bound to: the one of the device at
      this index in the enumeration, or the platform's default receiver. */
  datatype Receiver = DeviceReceiver(device: nat) | DefaultReceiver

  /** The calls made on a Sequencer. */
  datatype SequencerOp =
    | Stop
    | Close
    | Open
    | SetSequence(sequence: nat)
    | SetLoopCount(count: int)
    | Start

  /** One observable interaction with the runtime. */
  datatype Event =
    | ChannelEvent(channel: nat, message: ChannelMessage)
    | Sent(receiver: Receiver, short: ShortMessage, timestamp: int)
    | SequencerEvent(op: SequencerOp)

  /** Abstract state of a sequencer: open or closed, playing or not, the
      sequence (by identity) it holds and its loop count. */
  datatype SequencerState = SequencerState(open: bool, running: bool, loaded: Option<nat>, loopCount: int)

  /** A sequencer as MidiSystem.getSequencer hands it out: closed, idle, empty. */
  const FreshSequencer := SequencerState(false, false, None, 0)

  /** The effect of one call on the abstract sequencer state. */
  function Apply(s: SequencerState, op: SequencerOp): (t: SequencerState)
  {
    match op
    case Stop => s.(running := false)
    case Close => s.(open := false, running := false)
    case Open => s.(open := true)
    case SetSequence(id) => s.(loaded := Some(id))
    case SetLoopCount(n) => s.(loopCount := n)
    case Start => s.(running := true)
  }

  /** The effect of a series of calls, first to last. */
  function ApplyAll(s: SequencerState, ops: seq<SequencerOp>): (t: SequencerState)
    decreases |ops|
  {
    if ops == [] then s else ApplyAll(Apply(s, ops[0]), ops[1..])
  }

  /** The trace entries that a series of sequencer calls leaves. */
  function SequencerEvents(ops: seq<SequencerOp>): (r: seq<Event>)
  {
    seq(|ops|, i requires 0 <= i < |ops| => SequencerEvent(ops[i]))
  }

  /** What MidiSystem reports about the MIDI devices: the names of the
      enumerated devices (None when getMidiDeviceInfo throws), whether the
      matching device opens and yields a receiver, and whether a default
      receiver can be obtained. */
  datatype DeviceEnv = DeviceEnv(deviceNames: Option<seq<string>>, deviceOpens: bool, defaultReceiverAvailable: bool)

  /** A synthesizer offers at least one channel. */
  type ChannelCount = n: nat | 1 <= n witness 1

  /** What MidiSystem reports about local playback: whether a sequencer can
      be obtained and opened, whether the synthesizer can, and how many
      channels the synthesizer has. */
  datatype SynthEnv = SynthEnv(sequencerOpens: bool, synthOpens: bool, channelCount: ChannelCount)

  class Runtime {
    /** Every interaction, oldest first. */
    var trace: seq<Event>
    const devices: DeviceEnv
    const synth: SynthEnv

    constructor (devices: DeviceEnv, synth: SynthEnv)
      ensures trace == [] && this.devices == devices && this.synth == synth
    {
      trace := [];
      this.devices := devices;
      this.synth := synth;
    }
  }
}
