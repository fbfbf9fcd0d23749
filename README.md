# MIDI playback wrapper, modelled in Dafny

This project models the core of a small virtual-piano audio layer written in
Java on top of `javax.sound.midi`. It has two singletons:

- **MusicManager** owns a sequencer for playing whole sequences and the last
  channel of a synthesizer for live input. It keeps the current instrument
  index, stepping with wrap-around over [0, 127]. It mirrors live note-on and
  note-off events to the external port. Statically, it holds the table of
  instrument names read from a bundled text resource.
- **MidiOutManager** binds to the external MIDI port named `loopMIDI Port 2`
  and falls back to the platform's default receiver. It forwards note
  messages and never lets an error reach its caller.

The MIDI runtime is an opaque collaborator, `Midi.Runtime`. It keeps an event
trace of channel events, messages sent to a receiver, and sequencer calls
(the sequencer's `open` included); the getters and the building of the name
table append nothing. A call that throws leaves no trace entry, and two opens
are not traced: the port device's at music/MidiOutManager.java:19 and the
synthesizer's at music/MusicManager.java:81. It also fixes what the platform reports: the
enumerated device names, whether the matching device or a default receiver
opens, whether the sequencer and synthesizer open, and how many channels the
synthesizer has. The sequencer itself is an abstract state (open, running,
loaded sequence, loop count) changed by `Midi.Apply`. Java's static fields are
modelled as registry objects: `MidiOut.MidiOutRegistry` holds the lazily
created `MidiOutManager`, and `Music.MusicRegistry` holds the `MusicManager`
singleton and the instrument-name list. A null reference is `None`. The
`NullPointerException` that a channel call throws when the constructor got no
channel is the `NullPointerThrown` outcome. The `IllegalStateException` that
`Sequencer.stop` throws on a closed sequencer (after a failed reopen in `play`)
is the `IllegalStateThrown` outcome. A failing `ArrayList.get` in the name
lookups `Music.MusicRegistry.GetInstrumentName` and
`Music.MusicManager.GetInstrumentName` (the static lookup at the current
index) is `None`; what a lookup returns once the table is built is stated by
`Music.MusicRegistry.Init` and `InstrumentNames.TableEntry`.

Modules: `Wrappers` (Option), `Midi` (events, trace, sequencer state),
`JavaStrings` (`trim` and ASCII `equalsIgnoreCase`), `InstrumentNames` (the
name table), `MidiOut`, `Music`.

Three behaviours of the code are worth stating:

- A manager has a channel exactly when it has a sequencer
  (`MusicManager.Valid`). The synthesizer is opened only after the sequencer
  has opened, and a synthesizer failure sets the sequencer to null
  (music/MusicManager.java:76-90).
- When reading the resource fails part-way through, the lines read so far are
  kept (music/MusicManager.java:56-66).
- The table is padded to at least 128 entries. A longer resource keeps all of
  its leading non-blank lines (music/MusicManager.java:67-68).

## Model

| member | source | states |
|---|---|---|
| `JavaStrings.TrimStart` | music/MusicManager.java:60 | the leading part that `trim()` removes is all characters at or below U+0020, and what is left is a suffix that does not start with one |
| `JavaStrings.TrimEnd` | music/MusicManager.java:60 | the trailing part that `trim()` removes is all characters at or below U+0020, and what is left is a prefix that does not end with one |
| `JavaStrings.TrimIsSlice` | music/MusicManager.java:60 | `trim()` returns the contiguous piece of the line that starts where the leading trimmable run ends |
| `JavaStrings.TrimEndsAreNotTrimmable` | music/MusicManager.java:60 | the result of `trim()` neither starts nor ends with a trimmable character |
| `JavaStrings.TrimCutsOnlyTrimmable` | music/MusicManager.java:60 | everything `trim()` cuts off on either side is trimmable |
| `JavaStrings.TrimEmptyIffAllTrimmable` | music/MusicManager.java:60 | `line.trim().isEmpty()` holds exactly when every character of the line is at or below U+0020 |
| `JavaStrings.UpperAgreesWithJavaRule` | music/MidiOutManager.java:17 | two characters have the same ASCII upper case exactly when they are equal, equal upper-cased or equal lower-cased, which is Java's per-character test |
| `JavaStrings.EqualsIgnoreCaseIsJavaRule` | music/MidiOutManager.java:17 | the name comparison holds exactly when the lengths agree and every position passes Java's per-character case-insensitive test |
| `JavaStrings.EqualsIgnoreCaseIsEquivalence` | music/MidiOutManager.java:17 | case-insensitive name equality is reflexive, symmetric and transitive |
| `InstrumentNames.ReadErrorPersists` | music/MusicManager.java:58-60 | the model's stream keeps failing after its first failure; only that first failure is observable, because the loop stops there |
| `InstrumentNames.NamePrefixSpec` | music/MusicManager.java:60-62 | the names kept are the input lines in order, none of them blank, stopping only at end of input or at the first blank line |
| `InstrumentNames.NamePrefixFrom` | music/MusicManager.java:60-62 | after k non-blank lines, the kept prefix is those k lines followed by the prefix of the rest |
| `InstrumentNames.KeptLinesSpec` | music/MusicManager.java:56-66 | with a read error the lines read before it are kept; without one the kept lines stop exactly at end of input or before the first blank line |
| `InstrumentNames.InstrumentTableShape` | music/MusicManager.java:67-68 | the table has max(k, 128) entries for k kept lines: the kept lines first, then only empty strings |
| `InstrumentNames.EveryIdHasAName` | music/MusicManager.java:56-73 | whatever the resource holds and whether or not reading fails, the table has at least 128 entries |
| `InstrumentNames.TableEntry` | music/MusicManager.java:60-73 | for an id below 128, the table entry is the id-th kept line when that many lines were kept, and "" otherwise |
| `InstrumentNames.ReadInstrumentNames` | music/MusicManager.java:54-69 | the two loops build exactly the padded table of the kept lines; an error is reported exactly when a read error cut the reading loop short or closing the reader failed |
| `InstrumentNames.ThreeNameResource` | music/MusicManager.java:54-73 | a resource "Piano", "Guitar", "Bass" gives names 0 and 2 as "Piano" and "Bass", and "" at 3 and 127, in a table of 128 |
| `Midi.Runtime.constructor` | music/MusicManager.java:77-83 | the runtime starts with an empty trace and fixed platform answers |
| `MidiOut.ConnectedNameMatchesIgnoringCase` | music/MidiOutManager.java:11-17 | "LOOPMIDI PORT 2" matches the configured port name and "loopMIDI Port 1" does not |
| `MidiOut.FirstMatch` | music/MidiOutManager.java:16-23 | the result is the first index whose name equals the target ignoring case; there is none exactly when no name matches |
| `MidiOut.ScanDevices` | music/MidiOutManager.java:15-23 | the scan over the device infos returns the first case-insensitive match of "loopMIDI Port 2" and stops there |
| `MidiOut.SelectedDeviceIsFirstMatch` | music/MidiOutManager.java:16-23 | a device receiver is always that of the first matching device; if that device fails to open there is no receiver, and neither a later match nor the default is tried |
| `MidiOut.FallbackToDefault` | music/MidiOutManager.java:25-27 | the default receiver is used exactly when enumeration succeeded, no name matched, and a default receiver exists |
| `MidiOut.EnumerationFailureLeavesNoReceiver` | music/MidiOutManager.java:14-15 | if enumeration throws, construction completes with the receiver unset |
| `MidiOut.DeliveryForwardsUnchanged` | music/MidiOutManager.java:47-55 | a send delivers at most one event, exactly one when a receiver exists, carrying the command, channel and data bytes unchanged with timestamp -1 |
| `MidiOut.MidiOutManager.constructor` | music/MidiOutManager.java:13-31 | the receiver after construction is the one `SelectReceiver` picks for the platform's answers; no failure escapes |
| `MidiOut.MidiOutManager.SendNoteOn` | music/MidiOutManager.java:39-41 | the trace gains exactly the NOTE_ON message with channel, note and velocity as given, or nothing without a receiver |
| `MidiOut.MidiOutManager.SendNoteOff` | music/MidiOutManager.java:43-45 | the trace gains exactly the NOTE_OFF message with channel, note and velocity as given, or nothing without a receiver |
| `MidiOut.MidiOutManager.SendShortMessage` | music/MidiOutManager.java:47-55 | one message, unchanged and timestamped -1, goes to the receiver; with a null receiver the message is dropped and no error escapes |
| `MidiOut.MidiOutRegistry.constructor` | music/MidiOutManager.java:8 | no instance exists before first use |
| `MidiOut.MidiOutRegistry.GetInstance` | music/MidiOutManager.java:33-37 | the first call creates the instance; every later call returns that same instance |
| `Music.StepsAreModular` | music/MusicManager.java:156-170 | on [0, 127], increment is +1 and decrement is -1 modulo 128 (so 127 goes to 0 and 0 goes to 127), and both stay in [0, 127] |
| `Music.IncDecRoundTrip` | music/MusicManager.java:156-170 | increment then decrement, and decrement then increment, return to the original index |
| `Music.IncrementsAreModular` | music/MusicManager.java:164-170 | n increments from an index in range land on (i + n) mod 128 |
| `Music.FullCycle` | music/MusicManager.java:164-170 | 128 increments return to the start and no fewer do |
| `Music.PlayOpsOrder` | music/MusicManager.java:102-120 | play stops first; it starts only when reopening succeeded and the data was valid, and then as its last call, right after loading the sequence and setting the loop count to 0 |
| `Music.ApplyAllSnoc` | music/MusicManager.java:102-120 | running calls one after another is applying the last call to the effect of the earlier ones |
| `Music.PlayEffect` | music/MusicManager.java:102-120 | after play, earlier playback has stopped; the sequencer plays exactly when it reopened and took the data, and then it holds the new sequence with loop count 0; a failed reopen leaves it closed |
| `Music.MusicManager.constructor` | music/MusicManager.java:75-91 | both opens succeed: the sequencer is open, the channel is the last one, and exactly one program change to instrument 0 is emitted; otherwise sequencer and channel are both null; the index is 0 either way |
| `Music.MusicManager.CallSequencer` | music/MusicManager.java:104-116 | one sequencer call changes the abstract sequencer state and is traced |
| `Music.MusicManager.Play` | music/MusicManager.java:102-120 | without a sequencer nothing changes; on a closed sequencer the first stop throws IllegalStateException and nothing changes; otherwise the trace gains exactly the calls stop, close, open, setSequence, setLoopCount(0), start, up to and without the call that throws: a failed reopen leaves only stop and close, invalid data leaves stop, close and open |
| `Music.MusicManager.Stop` | music/MusicManager.java:122-125 | without a sequencer nothing changes; on a closed sequencer it throws IllegalStateException and nothing changes; otherwise exactly one stop is traced, only the running flag is cleared, and the open flag is unchanged |
| `Music.MusicManager.PlayNote` | music/MusicManager.java:127-133 | local noteOn(p, 120) is followed by external NOTE_ON(channel 0, p, 120), dropped only if there is no receiver; the external instance is created on first use |
| `Music.MusicManager.StopNote` | music/MusicManager.java:135-141 | local noteOff(p, 127) is followed by external NOTE_OFF(channel 0, p, 0), dropped only if there is no receiver |
| `Music.MusicManager.PedalDown` | music/MusicManager.java:143-145 | exactly one local controlChange(64, 127), and no external event |
| `Music.MusicManager.PedalUp` | music/MusicManager.java:147-149 | exactly one local controlChange(64, 0), and no external event |
| `Music.MusicManager.SetSynthInstrument` | music/MusicManager.java:151-154 | stores x unchecked and emits exactly one local program change to x; nothing else changes |
| `Music.MusicManager.DecSynthInstrument` | music/MusicManager.java:156-162 | the index becomes i - 1, or 127 from 0, and exactly that program change is emitted |
| `Music.MusicManager.IncSynthInstrument` | music/MusicManager.java:164-170 | the index becomes i + 1, or 0 from 127, and exactly that program change is emitted |
| `Music.MusicManager.GetSynthInstrument` | music/MusicManager.java:172-174 | returns the stored index |
| `Music.MusicRegistry.constructor` | music/MusicManager.java:26-41 | no manager exists and the name list is null before startup |
| `Music.MusicRegistry.GetInstance` | music/MusicManager.java:43-47 | the first call constructs the manager, which is in the constructor's state (index 0; an open sequencer and the last channel exactly when both opens succeed, otherwise neither); later calls return it and emit nothing |
| `Music.MusicRegistry.Init` | music/MusicManager.java:49-52 | always constructs a new manager, left in the constructor's state, then builds the table; afterwards `getInstrumentName(id)` for every id in [0, 127] returns the id-th line kept from the resource, or "" when fewer lines were kept |
| `Music.MusicManager.GetInstrumentName` | music/MusicManager.java:176-178 | no contract of its own: it is the static lookup at the current index |
| `Music.MusicRegistry.GetInstrumentName` | music/MusicManager.java:71-73 | no contract of its own: the entry at id when the table is built and id is within it, otherwise `None` for the throwing `get`; its value after startup is stated by `Init` and `InitInstrumentNames` |
| `Music.MusicRegistry.InitInstrumentNames` | music/MusicManager.java:54-73 | the static list becomes the padded table; a failure to read or to close the resource is reported; `getInstrumentName(id)` for every id in [0, 127] then returns the id-th kept line, or "" past them |

## Left out

- `finalize` (music/MusicManager.java:93-100): it runs only when the garbage collector reclaims the object, so it has no deterministic point in a trace.
- Sound synthesis, sequencer timing and the contents of a `Sequence`: a sequence is an identity plus a validity flag, and the sequencer is the abstract state changed by `Midi.Apply`.
- Opening and closing the synthesizer are not traced, and the `synth` field has no state of its own.
- `MidiOut.MidiOutManager.SendShortMessage`: does not model the range checks of `ShortMessage.setMessage`. That code is in `javax.sound.midi` and is not part of this model. A message those checks reject would also be dropped silently.
- `Music.MusicManager.constructor`: a synthesizer with no channels is outside the model (`Midi.ChannelCount` is at least 1). With no channels, `channels[channels.length - 1]` would throw out of the constructor. A null last channel is outside the model too: `Synthesizer.getChannels` may return null elements, and then `setSynthInstrument(0)` would throw a NullPointerException out of the constructor, which the catch for MidiUnavailableException does not take.
- `Utilities.getResourceURL` and the stream I/O are not part of this model. The resource is its list of lines, the index of the `readLine` call that throws, and whether `in.close()` throws. A failure to open the stream throws at call 0. A null URL would give an uncaught `NullPointerException`, and that case is not modelled.
- `ErrorHandler.display` and the console output and stack traces (music/MidiOutManager.java:21, 26, 29, 53) are not modelled. The report of a failed read or close is the `readFailed` result.
- Thread safety of the lazy singletons: the code has none, and the model is sequential.
- `equalsIgnoreCase` folds only ASCII letters here. Java also folds other Unicode letters.
- Whether `Sequencer.close` forgets the loaded sequence is library behaviour. The abstract state keeps it.
