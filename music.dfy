/**
 * MusicManager: owns a sequencer for playing whole sequences and one channel
 * of the synthesizer for live input, mirrors live notes to the external
 * MIDI port, keeps the current instrument index with wrap-around over
 * [0, 127], and (statically) the table of instrument names.
 */
module Music {
  import opened Wrappers
  import opened Midi
  import opened MidiOut
  import opened InstrumentNames

  const SYNTH_NOTE_VELOCITY: int := 120
  const SYNTH_INSTRUMENT: int := 0  // acoustic grand piano
  const PEDAL_ID: int := 64
  const PEDAL_ON: int := 127
  const PEDAL_OFF: int := 0
  /** Velocity of the local note-off. */
  const SYNTH_RELEASE_VELOCITY: int := 127
  /** Channel and note-off velocity of the messages mirrored to the external port. */
  const MIRROR_CHANNEL: int := 0
  const MIRROR_RELEASE_VELOCITY: int := 0

  // ---------------------------------------------------------------------
  // The instrument index

  predicate InInstrumentRange(i: int)
  {
    0 <= i < NUM_INSTRUMENT
  }

  /** The index incSynthInstrument moves to. */
  function NextInstrument(i: int): (j: int)
  {
    if i < NUM_INSTRUMENT - 1 then i + 1 else 0
  }

  /** The index decSynthInstrument moves to. */
  function PrevInstrument(i: int): (j: int)
  {
    if i > 0 then i - 1 else NUM_INSTRUMENT - 1
  }

  /** On an index in [0, 127], stepping is +1 or -1 modulo 128 (Dafny's %
      is Euclidean, so (0 - 1) % 128 == 127); hence the range is kept. */
  lemma StepsAreModular(i: int)
    requires InInstrumentRange(i)
    ensures NextInstrument(i) == (i + 1) % NUM_INSTRUMENT
    ensures PrevInstrument(i) == (i - 1) % NUM_INSTRUMENT
    ensures InInstrumentRange(NextInstrument(i)) && InInstrumentRange(PrevInstrument(i))
  {
  }

  /** Increment then decrement, or decrement then increment, is the identity
      on [0, 127]. */
  lemma IncDecRoundTrip(i: int)
    requires InInstrumentRange(i)
    ensures PrevInstrument(NextInstrument(i)) == i
    ensures NextInstrument(PrevInstrument(i)) == i
  {
  }

  /** n successive increments. */
  function Increments(i: int, n: nat): (j: int)
  {
    if n == 0 then i else NextInstrument(Increments(i, n - 1))
  }

  /** n increments from an index in range land on (i + n) mod 128. */
  lemma {:induction false} IncrementsAreModular(i: int, n: nat)
    requires InInstrumentRange(i)
    ensures Increments(i, n) == (i + n) % NUM_INSTRUMENT
  {
    if n > 0 {
      IncrementsAreModular(i, n - 1);
      var j := Increments(i, n - 1);
      StepsAreModular(j);
      assert (j + 1) % NUM_INSTRUMENT == (i + n) % NUM_INSTRUMENT by {
        ModSucc(i + n - 1);
      }
    }
  }

  lemma ModSucc(k: int)
    ensures (k % NUM_INSTRUMENT + 1) % NUM_INSTRUMENT == (k + 1) % NUM_INSTRUMENT
  {
  }

  /** Cycling through all 128 instruments returns to the start. */
  lemma FullCycle(i: int)
    requires InInstrumentRange(i)
    ensures Increments(i, NUM_INSTRUMENT) == i
    ensures forall n :: 0 < n < NUM_INSTRUMENT ==> Increments(i, n) != i
  {
    IncrementsAreModular(i, NUM_INSTRUMENT);
    forall n | 0 < n < NUM_INSTRUMENT ensures Increments(i, n) != i {
      IncrementsAreModular(i, n);
    }
  }

  // ---------------------------------------------------------------------
  // Sequence playback

  /** A sequence handed to play, by identity, and whether the sequencer
      accepts its data (setSequence throws InvalidMidiDataException if not). */
  datatype MidiSequence = MidiSequence(id: nat, valid: bool)

  /** The sequencer calls play makes, given whether reopening succeeds; a
      call that throws is not among them. */
  function PlayOps(sequence: MidiSequence, reopens: bool): (ops: seq<SequencerOp>)
  {
    [Stop, Close] +
    if !reopens then []
    else [Open] + if !sequence.valid then [] else [SetSequence(sequence.id), SetLoopCount(0), Start]
  }

  /** play stops first; it starts playback only when the sequencer reopened
      and accepted the data, and then as its very last call, right after
      loading the sequence and setting the loop count to 0. */
  lemma PlayOpsOrder(sequence: MidiSequence, reopens: bool)
    ensures PlayOps(sequence, reopens)[0] == Stop
    ensures Start in PlayOps(sequence, reopens) <==> reopens && sequence.valid
    ensures forall k :: 0 <= k < |PlayOps(sequence, reopens)| && PlayOps(sequence, reopens)[k] == Start ==>
      k == |PlayOps(sequence, reopens)| - 1 && k >= 2 &&
      PlayOps(sequence, reopens)[k - 1] == SetLoopCount(0) &&
      PlayOps(sequence, reopens)[k - 2] == SetSequence(sequence.id)
  {
  }

  lemma {:induction false} ApplyAllSnoc(s: SequencerState, ops: seq<SequencerOp>, op: SequencerOp)
    ensures ApplyAll(s, ops + [op]) == Apply(ApplyAll(s, ops), op)
    decreases |ops|
  {
    if ops != [] {
      assert (ops + [op])[1..] == ops[1..] + [op];
      ApplyAllSnoc(Apply(s, ops[0]), ops[1..], op);
    }
  }

  /** After play, whatever played before has stopped: the sequencer runs
      exactly when it reopened and took the data, and then it holds the new
      sequence with loop count 0; a failed reopen leaves it closed, and a
      rejected sequence leaves it open and idle. */
  lemma PlayEffect(s: SequencerState, sequence: MidiSequence, reopens: bool)
    ensures var t := ApplyAll(s, PlayOps(sequence, reopens));
      (t.running <==> reopens && sequence.valid) &&
      (t.open <==> reopens) &&
      (t.running ==> t.loaded == Some(sequence.id) && t.loopCount == 0) &&
      (!t.running ==> t.loaded == s.loaded && t.loopCount == s.loopCount)
  {
    var s1 := Apply(s, Stop);
    var s2 := Apply(s1, Close);
    ApplyAllSnoc(s, [], Stop);
    ApplyAllSnoc(s, [Stop], Close);
    assert [Stop] + [Close] == [Stop, Close];
    if reopens {
      ApplyAllSnoc(s, [Stop, Close], Open);
      assert [Stop, Close] + [Open] == [Stop, Close, Open];
      assert !sequence.valid ==> PlayOps(sequence, reopens) == [Stop, Close, Open];
      if sequence.valid {
        var ops := [Stop, Close, Open];
        ApplyAllSnoc(s, ops, SetSequence(sequence.id));
        ApplyAllSnoc(s, ops + [SetSequence(sequence.id)], SetLoopCount(0));
        ApplyAllSnoc(s, ops + [SetSequence(sequence.id)] + [SetLoopCount(0)], Start);
        assert ops + [SetSequence(sequence.id)] + [SetLoopCount(0)] + [Start] == PlayOps(sequence, reopens);
      }
    }
  }

  /** Outcome of a call that can throw out of the manager: a call on the
      synthesizer channel throws NullPointerException when the constructor
      could not obtain one, and Sequencer.stop throws IllegalStateException
      when the sequencer is closed (as a failed reopen in play leaves it). */
  datatype Outcome = Completed | NullPointerThrown | IllegalStateThrown

  /** The trace a construction leaves: the sequencer opening, then the
      program change to the default instrument once the synthesizer opened. */
  function ConstructionTrace(env: SynthEnv): (events: seq<Event>)
  {
    (if env.sequencerOpens then [SequencerEvent(Open)] else []) +
    (if env.sequencerOpens && env.synthOpens
     then [ChannelEvent(env.channelCount - 1, ProgramChange(SYNTH_INSTRUMENT))]
     else [])
  }

  class MusicManager {
    const statics: MusicRegistry
    const rt: Runtime
    const outs: MidiOutRegistry
    /** None is a null sequencer: playback is disabled. */
    var sequencer: Option<SequencerState>
    /** The number of the synthesizer's last channel; None when null. */
    var synthChannel: Option<nat>
    var synthInstrument: int

    ghost predicate Valid()
      reads this, outs
    {
      rt == statics.rt && outs == statics.outs && outs.rt == rt && outs.Valid() &&
      (sequencer.Some? <==> synthChannel.Some?) &&
      (synthChannel.Some? ==> synthChannel.value == rt.synth.channelCount - 1)
    }

    /** What a call on the channel appends to the trace: one channel event,
        or nothing when the channel is null. */
    function Local(message: ChannelMessage): (events: seq<Event>)
      reads this
    {
      if synthChannel.Some? then [ChannelEvent(synthChannel.value, message)] else []
    }

    function ChannelOutcome(): (outcome: Outcome)
      reads this
    {
      if synthChannel.Some? then Completed else NullPointerThrown
    }

    /** The state the constructor leaves: index 0; an open sequencer and the
        synthesizer's last channel when both opens succeed, otherwise neither. */
    ghost predicate Initial()
      reads this
    {
      synthInstrument == SYNTH_INSTRUMENT &&
      (rt.synth.sequencerOpens && rt.synth.synthOpens ==>
         sequencer == Some(Apply(FreshSequencer, Open)) &&
         synthChannel == Some(rt.synth.channelCount - 1)) &&
      (!(rt.synth.sequencerOpens && rt.synth.synthOpens) ==>
         sequencer.None? && synthChannel.None?)
    }

    /** Opens the sequencer, then the synthesizer, takes its last channel and
        sets the default instrument. A failure of either open leaves both
        the sequencer and the channel null; the index is 0 in every case. */
    constructor (statics: MusicRegistry)
      requires statics.outs.rt == statics.rt && statics.outs.Valid()
      modifies statics.rt`trace
      ensures this.statics == statics && Valid()
      ensures synthInstrument == SYNTH_INSTRUMENT
      ensures statics.rt.synth.sequencerOpens && statics.rt.synth.synthOpens ==>
        sequencer == Some(Apply(FreshSequencer, Open)) &&
        synthChannel == Some(statics.rt.synth.channelCount - 1)
      ensures !(statics.rt.synth.sequencerOpens && statics.rt.synth.synthOpens) ==>
        sequencer.None? && synthChannel.None?
      ensures statics.rt.trace == old(statics.rt.trace) + ConstructionTrace(statics.rt.synth)
      ensures Initial()
    {
      this.statics := statics;
      rt := statics.rt;
      outs := statics.outs;
      var env := statics.rt.synth;
      synthInstrument := 0;
      if env.sequencerOpens && env.synthOpens {
        sequencer := Some(Apply(FreshSequencer, Open));
        synthChannel := Some(env.channelCount - 1);
      } else {
        sequencer := None;
        synthChannel := None;
      }
      new;
      if env.sequencerOpens {
        rt.trace := rt.trace + [SequencerEvent(Open)];
      }
      if synthChannel.Some? {
        var outcome := SetSynthInstrument(SYNTH_INSTRUMENT);
      }
    }

    /** One call on the sequencer. */
    method CallSequencer(op: SequencerOp)
      requires Valid() && sequencer.Some?
      modifies this`sequencer, rt`trace
      ensures Valid() && sequencer == Some(Apply(old(sequencer).value, op))
      ensures rt.trace == old(rt.trace) + [SequencerEvent(op)]
    {
      sequencer := Some(Apply(sequencer.value, op));
      rt.trace := rt.trace + [SequencerEvent(op)];
    }

    /** Does nothing without a sequencer; otherwise stops (which throws if
        the sequencer is closed), closes, reopens (giving up if that fails),
        then loads the sequence, sets the loop count to 0 and starts (giving
        up if the data is invalid). */
    method Play(sequence: MidiSequence, reopens: bool) returns (outcome: Outcome)
      requires Valid()
      modifies this`sequencer, rt`trace
      ensures Valid()
      ensures outcome == (if old(sequencer).Some? && !old(sequencer).value.open then IllegalStateThrown else Completed)
      ensures (old(sequencer).None? || !old(sequencer).value.open) ==>
        sequencer == old(sequencer) && rt.trace == old(rt.trace)
      ensures old(sequencer).Some? && old(sequencer).value.open ==>
        sequencer == Some(ApplyAll(old(sequencer).value, PlayOps(sequence, reopens))) &&
        rt.trace == old(rt.trace) + SequencerEvents(PlayOps(sequence, reopens))
    {
      if sequencer.None? {
        return Completed;
      }
      if !sequencer.value.open {
        return IllegalStateThrown;
      }
      ghost var s0 := sequencer.value;
      ghost var t0 := rt.trace;
      ghost var ops: seq<SequencerOp> := [];
      CallSequencer(SequencerOp.Stop);
      ApplyAllSnoc(s0, ops, SequencerOp.Stop);  ops := ops + [SequencerOp.Stop];
      CallSequencer(Close);
      ApplyAllSnoc(s0, ops, Close);  ops := ops + [Close];
      if reopens {
        CallSequencer(Open);
        ApplyAllSnoc(s0, ops, Open);  ops := ops + [Open];
        if sequence.valid {
          CallSequencer(SetSequence(sequence.id));
          ApplyAllSnoc(s0, ops, SetSequence(sequence.id));  ops := ops + [SetSequence(sequence.id)];
          CallSequencer(SetLoopCount(0));
          ApplyAllSnoc(s0, ops, SetLoopCount(0));  ops := ops + [SetLoopCount(0)];
          CallSequencer(Start);
          ApplyAllSnoc(s0, ops, Start);  ops := ops + [Start];
        }
      }
      assert ops == PlayOps(sequence, reopens);
      assert rt.trace == t0 + SequencerEvents(ops);
      outcome := Completed;
    }

    /** Does nothing without a sequencer; otherwise stops it, leaving its
        open flag as it was, or throws if it is closed. */
    method Stop() returns (outcome: Outcome)
      requires Valid()
      modifies this`sequencer, rt`trace
      ensures Valid()
      ensures outcome == (if old(sequencer).Some? && !old(sequencer).value.open then IllegalStateThrown else Completed)
      ensures (old(sequencer).None? || !old(sequencer).value.open) ==>
        sequencer == old(sequencer) && rt.trace == old(rt.trace)
      ensures old(sequencer).Some? && old(sequencer).value.open ==>
        sequencer == Some(old(sequencer).value.(running := false)) &&
        rt.trace == old(rt.trace) + [SequencerEvent(SequencerOp.Stop)]
    {
      if sequencer.None? {
        return Completed;
      }
      if !sequencer.value.open {
        return IllegalStateThrown;
      }
      CallSequencer(SequencerOp.Stop);
      outcome := Completed;
    }

    /** Sounds the note locally at velocity 120, then sends NOTE_ON with the
        same pitch and velocity on channel 0 to the external port. */
    method PlayNote(pitch: int) returns (outcome: Outcome)
      requires Valid()
      modifies rt`trace, outs`instance
      ensures Valid() && outcome == ChannelOutcome()
      ensures synthChannel.None? ==> rt.trace == old(rt.trace) && outs.instance == old(outs.instance)
      ensures synthChannel.Some? ==>
        outs.instance != null && (old(outs.instance) != null ==> outs.instance == old(outs.instance)) &&
        rt.trace == old(rt.trace)
          + [ChannelEvent(synthChannel.value, NoteOn(pitch, SYNTH_NOTE_VELOCITY))]
          + Delivery(SelectReceiver(rt.devices), ShortMessage(NOTE_ON, MIRROR_CHANNEL, pitch, SYNTH_NOTE_VELOCITY))
    {
      if synthChannel.None? {
        return NullPointerThrown;
      }
      rt.trace := rt.trace + [ChannelEvent(synthChannel.value, NoteOn(pitch, SYNTH_NOTE_VELOCITY))];
      var out := outs.GetInstance();
      out.SendNoteOn(MIRROR_CHANNEL, pitch, SYNTH_NOTE_VELOCITY);
      outcome := Completed;
    }

    /** Releases the note locally with velocity 127, then sends NOTE_OFF with
        the same pitch and velocity 0 on channel 0 to the external port. */
    method StopNote(pitch: int) returns (outcome: Outcome)
      requires Valid()
      modifies rt`trace, outs`instance
      ensures Valid() && outcome == ChannelOutcome()
      ensures synthChannel.None? ==> rt.trace == old(rt.trace) && outs.instance == old(outs.instance)
      ensures synthChannel.Some? ==>
        outs.instance != null && (old(outs.instance) != null ==> outs.instance == old(outs.instance)) &&
        rt.trace == old(rt.trace)
          + [ChannelEvent(synthChannel.value, NoteOff(pitch, SYNTH_RELEASE_VELOCITY))]
          + Delivery(SelectReceiver(rt.devices), ShortMessage(NOTE_OFF, MIRROR_CHANNEL, pitch, MIRROR_RELEASE_VELOCITY))
    {
      if synthChannel.None? {
        return NullPointerThrown;
      }
      rt.trace := rt.trace + [ChannelEvent(synthChannel.value, NoteOff(pitch, SYNTH_RELEASE_VELOCITY))];
      var out := outs.GetInstance();
      out.SendNoteOff(MIRROR_CHANNEL, pitch, MIRROR_RELEASE_VELOCITY);
      outcome := Completed;
    }

    /** Sustain pedal on, on the local channel only. */
    method PedalDown() returns (outcome: Outcome)
      requires Valid()
      modifies rt`trace
      ensures Valid() && outcome == ChannelOutcome()
      ensures rt.trace == old(rt.trace) + Local(ControlChange(PEDAL_ID, PEDAL_ON))
    {
      if synthChannel.None? {
        return NullPointerThrown;
      }
      rt.trace := rt.trace + [ChannelEvent(synthChannel.value, ControlChange(PEDAL_ID, PEDAL_ON))];
      outcome := Completed;
    }

    /** Sustain pedal off, on the local channel only. */
    method PedalUp() returns (outcome: Outcome)
      requires Valid()
      modifies rt`trace
      ensures Valid() && outcome == ChannelOutcome()
      ensures rt.trace == old(rt.trace) + Local(ControlChange(PEDAL_ID, PEDAL_OFF))
    {
      if synthChannel.None? {
        return NullPointerThrown;
      }
      rt.trace := rt.trace + [ChannelEvent(synthChannel.value, ControlChange(PEDAL_ID, PEDAL_OFF))];
      outcome := Completed;
    }

    /** Stores the index (unchecked), then asks the channel for that program. */
    method SetSynthInstrument(instrument: int) returns (outcome: Outcome)
      requires Valid()
      modifies this`synthInstrument, rt`trace
      ensures Valid() && outcome == ChannelOutcome()
      ensures synthInstrument == instrument
      ensures rt.trace == old(rt.trace) + Local(ProgramChange(instrument))
    {
      synthInstrument := instrument;
      if synthChannel.None? {
        return NullPointerThrown;
      }
      rt.trace := rt.trace + [ChannelEvent(synthChannel.value, ProgramChange(instrument))];
      outcome := Completed;
    }

    /** Steps the index down, from 0 to 127. */
    method DecSynthInstrument() returns (outcome: Outcome)
      requires Valid()
      modifies this`synthInstrument, rt`trace
      ensures Valid() && outcome == ChannelOutcome()
      ensures synthInstrument == PrevInstrument(old(synthInstrument))
      ensures rt.trace == old(rt.trace) + Local(ProgramChange(synthInstrument))
    {
      if synthInstrument > 0 {
        outcome := SetSynthInstrument(synthInstrument - 1);
      } else {
        outcome := SetSynthInstrument(NUM_INSTRUMENT - 1);
      }
    }

    /** Steps the index up, from 127 to 0. */
    method IncSynthInstrument() returns (outcome: Outcome)
      requires Valid()
      modifies this`synthInstrument, rt`trace
      ensures Valid() && outcome == ChannelOutcome()
      ensures synthInstrument == NextInstrument(old(synthInstrument))
      ensures rt.trace == old(rt.trace) + Local(ProgramChange(synthInstrument))
    {
      if synthInstrument < NUM_INSTRUMENT - 1 {
        outcome := SetSynthInstrument(synthInstrument + 1);
      } else {
        outcome := SetSynthInstrument(0);
      }
    }

    method GetSynthInstrument() returns (instrument: int)
      ensures instrument == synthInstrument
    {
      instrument := synthInstrument;
    }

    /** The name of the current instrument, looked up in the static table. */
    function GetInstrumentName(): (name: Option<string>)
      reads this, statics
    {
      statics.GetInstrumentName(synthInstrument)
    }
  }

  /** The static part of MusicManager: the singleton and the name table. */
  class MusicRegistry {
    const rt: Runtime
    const outs: MidiOutRegistry
    var musicManager: MusicManager?
    /** None until the table is built (a null list). */
    var instrumentNames: Option<seq<string>>

    ghost predicate Valid()
      reads this, outs, musicManager
    {
      outs.rt == rt && outs.Valid() &&
      (musicManager != null ==>
         musicManager.statics == this && musicManager.outs == outs && musicManager.Valid())
    }

    constructor (rt: Runtime, outs: MidiOutRegistry)
      requires outs.rt == rt && outs.Valid()
      ensures this.rt == rt && this.outs == outs && Valid()
      ensures musicManager == null && instrumentNames.None?
    {
      this.rt := rt;
      this.outs := outs;
      musicManager := null;
      instrumentNames := None;
    }

    /** Creates the manager on first use; from then on always returns it. */
    method GetInstance() returns (m: MusicManager)
      requires Valid()
      modifies this`musicManager, rt`trace
      ensures Valid() && musicManager == m
      ensures old(musicManager) != null ==> m == old(musicManager) && rt.trace == old(rt.trace)
      ensures old(musicManager) == null ==>
        fresh(m) && m.Initial() && rt.trace == old(rt.trace) + ConstructionTrace(rt.synth)
    {
      if musicManager == null {
        musicManager := new MusicManager(this);
      }
      m := musicManager;
    }

    /** A new manager in every case, then the name table. */
    method Init(src: ResourceStream) returns (readFailed: bool)
      requires Valid()
      modifies this`musicManager, this`instrumentNames, rt`trace
      ensures Valid() && musicManager != null && fresh(musicManager) && musicManager.Initial()
      ensures rt.trace == old(rt.trace) + ConstructionTrace(rt.synth)
      ensures instrumentNames == Some(InstrumentTable(src))
      ensures readFailed == FailureReported(src)
      ensures forall id: nat :: id < NUM_INSTRUMENT ==> GetInstrumentName(id) == Some(NameOf(src, id))
    {
      musicManager := new MusicManager(this);
      readFailed := InitInstrumentNames(src);
    }

    /** Builds the table; a read failure is reported and the lines read so
        far are kept. */
    method InitInstrumentNames(src: ResourceStream) returns (readFailed: bool)
      requires Valid()
      modifies this`instrumentNames
      ensures Valid()
      ensures instrumentNames == Some(InstrumentTable(src))
      ensures readFailed == FailureReported(src)
      ensures forall id: nat :: id < NUM_INSTRUMENT ==> GetInstrumentName(id) == Some(NameOf(src, id))
    {
      var names;
      names, readFailed := ReadInstrumentNames(src);
      instrumentNames := Some(names);
      forall id: nat | id < NUM_INSTRUMENT
        ensures GetInstrumentName(id) == Some(NameOf(src, id))
      {
        TableEntry(src, id);
      }
    }

    /** ArrayList.get: defined for an index of the built table, otherwise
        the Java call throws (None). */
    function GetInstrumentName(id: int): (name: Option<string>)
      reads this
    {
      if instrumentNames.Some? && 0 <= id < |instrumentNames.value| then Some(instrumentNames.value[id]) else None
    }
  }
}
