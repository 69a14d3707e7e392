# Launchkey Mini MK4 37 drivers for Zynthian, modelled in Dafny

The repository holds two Zynthian control-device drivers for the Novation
Launchkey Mini MK4 37 in DAW mode. Each is a single-threaded MIDI translator:
`midi_event` decodes a raw event, routes pads, buttons and knobs to mixer
writes, host actions ("CUIA" calls) or re-mapped MIDI, and says whether it
consumed the event; `update_pad_leds` and `update_button_leds` write LED
velocities back to the device.

- `zynthian_ctrldev_launchkey_mini_mk4_37.py` runs the knobs in Novation's
  Transport (relative) mode on CC 85..92. Bank 0 nudges mixer levels, bank 1
  drives the host's four rotary encoders, preset browsing, a debounced
  select/back knob and arrows, and bank 2 forwards the knobs as CC 24..31.
  The driver starts in bank 1.
- `zynthian_ctrldev_launchkey_mk4_37.py` reads the knobs as absolute values
  on CC 21..28. Bank 0 sets mixer levels with soft takeover, bank 1 turns
  absolute samples into encoder deltas with 7-bit wrap-around and forwards
  knobs 5..8 as CC 20..23, and bank 2 leaves the knobs to the host. The
  driver starts in bank 0.

The project has three modules, one file each:

- `surface.dfy` (`Surface`): what both files share. It holds the status-byte
  decoding (kind is the high nibble, channel the low nibble, data bytes
  masked to seven bits, as in the Channel Voice Messages of the MIDI 1.0
  Detailed Specification). It also holds the output log's datatype, the
  chain-to-mixer-channel lookup, a `Mixer` class standing for the host
  mixer, the hold classifier, the three-bank ring, the button-LED and pad-LED
  writes and the pad-note handling. The two drivers handle these
  identically, up to their own numbers.
- `mini.dfy` (`LaunchkeyMini`) and `mk4.dfy` (`LaunchkeyMk4`): each driver
  as a class (`MiniDriver`, `Mk4Driver`) with the source's fields. The class
  has `MidiEvent`, `ControlChange`, `Knob`, `Hold`, `Refresh` and the two LED
  methods, which update the fields and the mixer in place and append to a
  `log` of outputs. Each method is proved equal to a pure step function
  (`MidiStep`, `ControlStep`, `KnobStep`) of the old state. The properties
  are proved as lemmas about those functions.

The host is abstract. Chains are a map from position to the chain's
optional mixer channel. The mixer is three maps: level, mute and solo. A
channel the mixer does not list reads as level 0, not muted and not soloed.
The active processor is an optional record of its preset count and preset
index. Wall-clock time is an integer number of milliseconds passed in as
`now`, so the thresholds are 500, 1500 and 600. Levels are `real`. A device
without an output port (`idev_out is None`) is the constant `hasOutput`.

Outputs are logged in order as `Cuia(name, args)` for `send_cuia`,
`Forward(bytes)` for `write_zynmidi`, `DevNoteOn` and `DevCC` for writes to
the device, `SelectBank` for the sequencer bank and `SetPreset` for the
processor's preset.

Behaviour of the code that the model keeps as written:

- The mini driver takes Transport values 1 and 127 as single steps. Every
  other value counts its distance from 64, so 2 gives -62 while 1 gives -1.
- In the mk4 driver a bank switch clears only `mixer_synced`
  (`zynthian_ctrldev_launchkey_mk4_37.py:272`, `:283`).
  `last_zynpot_values` is never cleared.
- The mk4 wrap-around delta keeps a jump of exactly +64 as +64 and a jump of
  exactly -64 as -64; only larger jumps are folded back by 128.
- Bank-2 knobs of the mk4 driver fall through to `return False`.
- Both drivers write keyboard notes to the host's MIDI routing and then
  report them as consumed (`True`).
- In the mini driver, knob 8 of bank 1 sends ARROW_UP on a turn down and
  ARROW_DOWN on a turn up, whatever the comments beside it say.

## Model

| member | source | states |
|---|---|---|
| Surface.Kind | zynthian_ctrldev_launchkey_mini_mk4_37.py:206 | the event kind is a nibble, and for a status byte it is the byte's high nibble |
| Surface.Channel | zynthian_ctrldev_launchkey_mini_mk4_37.py:207 | the channel is a nibble that, with the kind, rebuilds the status byte |
| Surface.Data7 | zynthian_ctrldev_launchkey_mini_mk4_37.py:212-213 | a masked data byte is in 0..127 and a seven-bit byte is left as it is |
| Surface.StatusRoundTrip | zynthian_ctrldev_launchkey_mini_mk4_37.py:441 | composing a status byte from a kind and a channel and decoding it gives back the kind and the channel |
| Surface.ForwardCC | zynthian_ctrldev_launchkey_mini_mk4_37.py:441 | a forwarded control change is three bytes: status 0xB0 + channel, which decodes to a control change on that channel, then the new number and the value |
| Surface.MixerChanAt | zynthian_ctrldev_launchkey_mini_mk4_37.py:144-146 | a position has a mixer channel exactly when its chain exists, has a channel and the channel is below 17, and then it is that channel |
| Surface.Classify | zynthian_ctrldev_launchkey_mini_mk4_37.py:303-312 | a hold is short iff under 500 ms, bold iff 500 ms up to under 1500 ms, long iff 1500 ms or more |
| Surface.ClassifyMonotone | zynthian_ctrldev_launchkey_mini_mk4_37.py:303-312 | a longer hold never gets a shorter class |
| Surface.HoldStep | zynthian_ctrldev_launchkey_mini_mk4_37.py:295-313 | a press records now for the button and emits nothing; a release unregisters it and emits one ZYNSWITCH classified by the held time iff it was registered, else nothing; other buttons' press times are kept |
| Surface.PressThenRelease | zynthian_ctrldev_launchkey_mini_mk4_37.py:294-314 | a press at t1 then its release at t2 emit exactly one ZYNSWITCH classified by t2 - t1 and leave the registry as it was without that button |
| Surface.SpuriousRelease | zynthian_ctrldev_launchkey_mini_mk4_37.py:300-302 | a release without a registered press changes nothing and emits nothing |
| Surface.PrevBank | zynthian_ctrldev_launchkey_mini_mk4_37.py:273 | the previous bank is in 0..2 and one step below the old bank, modulo 3 |
| Surface.NextBank | zynthian_ctrldev_launchkey_mini_mk4_37.py:283 | the next bank is in 0..2 and one step above the old bank, modulo 3 |
| Surface.PrevNextInverse | zynthian_ctrldev_launchkey_mini_mk4_37.py:267-286 | button 51 undoes button 52 and 52 undoes 51 |
| Surface.RingPeriod | zynthian_ctrldev_launchkey_mini_mk4_37.py:267-286 | three presses of the same bank button return to the starting bank |
| Surface.ButtonLeds | zynthian_ctrldev_launchkey_mini_mk4_37.py:95-107 | eight control changes on channel 0, the last two addressing CC 51 then CC 52 |
| Surface.PadLeds | zynthian_ctrldev_launchkey_mini_mk4_37.py:130-200 | sixteen note-ons on channel 0: notes 96..103 for the solo row, then 112..119 for the mute row |
| Surface.NoteStep | zynthian_ctrldev_launchkey_mini_mk4_37.py:211-252 | a note never changes a level; the mixer changes only for a pad note-on with velocity > 0; the note is forwarded iff it is not a pad note |
| Surface.BankIndicators | zynthian_ctrldev_launchkey_mini_mk4_37.py:99-107 | eight writes: the six navigation buttons at 127, then CC 51 at 127 iff bank 0 and CC 52 at 127 iff bank 1, both 0 in bank 2 |
| Surface.ButtonLedWrites | zynthian_ctrldev_launchkey_mini_mk4_37.py:95-107 | the loop over the navigation buttons, then the two indicators, writes exactly the button-LED sequence |
| Surface.PadLedWrites | zynthian_ctrldev_launchkey_mini_mk4_37.py:130-200 | the two loops over eight positions write exactly the solo row then the mute row of pad velocities |
| Surface.PadLedAt | zynthian_ctrldev_launchkey_mini_mk4_37.py:140-200 | sixteen writes; write i is note 96 + i with its solo velocity, write 8 + i is note 112 + i with its mute velocity |
| Surface.NoteRouting | zynthian_ctrldev_launchkey_mini_mk4_37.py:211-252 | pad notes 96..119 never reach the host and never change a level; every other note reaches it unchanged and changes nothing else |
| Surface.PadToggle | zynthian_ctrldev_launchkey_mini_mk4_37.py:216-243 | a pressed solo pad on a valid position flips that channel's solo and changes nothing else in the mixer; a mute pad does the same for mute; the pads are then relit |
| Surface.PadInert | zynthian_ctrldev_launchkey_mini_mk4_37.py:214-246 | a pad note-off, a zero-velocity pad note-on, a note in 104..111, or a pad press on a position with no valid mixer channel changes nothing and emits nothing |
| Surface.HandleNote | zynthian_ctrldev_launchkey_mini_mk4_37.py:211-252 | the in-place note handling changes the mixer and returns the writes exactly as the note step function does for the old mixer |
| LaunchkeyMini.TransportDelta | zynthian_ctrldev_launchkey_mini_mk4_37.py:331-336 | delta is 0 iff the value is 64, negative iff below 64, positive iff above; 1 gives -1, 127 gives 1, other values give value - 64, so 0 gives -64 |
| LaunchkeyMini.Direction | zynthian_ctrldev_launchkey_mini_mk4_37.py:369-374 | the bank-1 direction decode is the sign of the Transport delta |
| LaunchkeyMini.Nudge | zynthian_ctrldev_launchkey_mini_mk4_37.py:340-341 | the nudged level is in [0, 1] and is the old level plus delta/100, clamped to 0 below and to 1 above |
| LaunchkeyMini.NudgeDirection | zynthian_ctrldev_launchkey_mini_mk4_37.py:338-342 | a turn up never lowers a level in [0, 1], a turn down never raises it, no turn keeps it |
| LaunchkeyMini.PresetWrap | zynthian_ctrldev_launchkey_mini_mk4_37.py:386-391 | for a non-empty list the new index is in range: the stepped index when it is in range, the last index below 0, the first at or past the end |
| LaunchkeyMini.PresetWrapRoundTrip | zynthian_ctrldev_launchkey_mini_mk4_37.py:386-391 | stepping down from the first preset and back up returns to it, and likewise up from the last |
| LaunchkeyMini.BrowsePreset | zynthian_ctrldev_launchkey_mini_mk4_37.py:376-396 | outputs appear iff the knob turns and the active processor has presets, and then they are three, the first setting an index inside the preset list |
| LaunchkeyMini.Turn | zynthian_ctrldev_launchkey_mini_mk4_37.py:409-434 | a value below 64 gives the down action, above 64 the up action, 64 nothing |
| LaunchkeyMini.KnobStep | zynthian_ctrldev_launchkey_mini_mk4_37.py:317-442 | a knob is consumed iff the bank is 0..2; an unconsumed knob changes nothing; a knob changes only the debounce clock, which moves to now only for knob 6 in bank 1; mute and solo are never touched |
| LaunchkeyMini.ControlStep | zynthian_ctrldev_launchkey_mini_mk4_37.py:253-494 | an unconsumed control change changes nothing; only CC 0x3F changes shift; the mixer changes only for a bank-0 knob (ShiftKey, TransportButtons, CommandButtons and ZeroSwallowed state the button outputs) |
| LaunchkeyMini.MidiStep | zynthian_ctrldev_launchkey_mini_mk4_37.py:205-502 | an unconsumed event changes nothing; only control changes change the driver's fields; only control changes and note-ons change the mixer |
| LaunchkeyMini.ControlConsumed | zynthian_ctrldev_launchkey_mini_mk4_37.py:253-502 | with the bank in 0..2, a control change is consumed iff its number is mapped (knobs included) or its number or value is 0 |
| LaunchkeyMini.UnmappedPassesThrough | zynthian_ctrldev_launchkey_mini_mk4_37.py:493-502 | an unmapped control change with non-zero number and value is not consumed and changes nothing |
| LaunchkeyMini.NoteEvents | zynthian_ctrldev_launchkey_mini_mk4_37.py:211-252 | every note is consumed and leaves the driver state; a keyboard note is forwarded unchanged and leaves the mixer |
| LaunchkeyMini.OtherKinds | zynthian_ctrldev_launchkey_mini_mk4_37.py:496-502 | program change p selects sequencer bank p + 1 and is consumed; any other kind is not consumed and changes nothing |
| LaunchkeyMini.BankButtons | zynthian_ctrldev_launchkey_mini_mk4_37.py:266-286 | without shift, 51 and 52 step the bank down or up and relight the bank LEDs; with shift they keep the state and emit exactly ARROW_UP or ARROW_DOWN |
| LaunchkeyMini.BankStaysInRing | zynthian_ctrldev_launchkey_mini_mk4_37.py:267-286 | every event keeps the bank in 0..2, and only an unshifted press of 51 or 52 changes it |
| LaunchkeyMini.HeldSwitch | zynthian_ctrldev_launchkey_mini_mk4_37.py:294-471 | for 104 (lines 294-314) and 74..77 (lines 445-471): a press records now (104 also lights its LED), a matched release emits one classified ZYNSWITCH and forgets the press, an unmatched release changes nothing |
| LaunchkeyMini.PressThenReleaseEvents | zynthian_ctrldev_launchkey_mini_mk4_37.py:294-471 | for button 104 (lines 294-314) and buttons 74..77 (lines 445-471), a press event then its release event emit exactly one ZYNSWITCH for that switch, classified by the time between them, and restore the registry |
| LaunchkeyMini.ShiftMetronome | zynthian_ctrldev_launchkey_mini_mk4_37.py:446-450 | with shift, CC 76 is consumed, emits TEMPO only on a press and never touches the press registry |
| LaunchkeyMini.ShiftKey | zynthian_ctrldev_launchkey_mini_mk4_37.py:289-291 | CC 0x3F is consumed, sets shift to whether its value is non-zero, and changes and sends nothing else |
| LaunchkeyMini.TransportButtons | zynthian_ctrldev_launchkey_mini_mk4_37.py:474-494 | a PLAY press sends TOGGLE_PLAY, or TOGGLE_MIDI_PLAY while shift is held; RECORD likewise with TOGGLE_RECORD and TOGGLE_MIDI_RECORD; a release is consumed with no effect |
| LaunchkeyMini.CommandButtons | zynthian_ctrldev_launchkey_mini_mk4_37.py:488-494 | a command-button press sends its LED-on write and then its action, changing no state; a release is consumed with no effect |
| LaunchkeyMini.ZeroSwallowed | zynthian_ctrldev_launchkey_mini_mk4_37.py:493-494 | a control change with number or value 0 that reaches the last branch (the release of 51/52, PLAY, RECORD or a command button, CC 0, an unmapped number at value 0) is consumed and leaves the state and mixer unchanged and sends nothing |
| LaunchkeyMini.ShiftThenPlay | zynthian_ctrldev_launchkey_mini_mk4_37.py:289-485 | a shift event followed by a PLAY press toggles the MIDI transport exactly when the shift event held shift down, and leaves only shift changed |
| LaunchkeyMini.BankZeroNudge | zynthian_ctrldev_launchkey_mini_mk4_37.py:320-343 | in bank 0 a knob is consumed; it writes the nudged level of its position's channel only for a non-zero delta on a valid chain, and the level stays in [0, 1] |
| LaunchkeyMini.BankOneKnobs | zynthian_ctrldev_launchkey_mini_mk4_37.py:344-436 | in bank 1 knobs 1..4 send ZYNPOT [cc - 85, delta] unless the value is 64; knob 7 sends ARROW_LEFT or ARROW_RIGHT, knob 8 ARROW_UP or ARROW_DOWN |
| LaunchkeyMini.PresetBrowsing | zynthian_ctrldev_launchkey_mini_mk4_37.py:366-399 | knob 5 of bank 1 acts iff it turns and the active processor has presets; it then sets the wrapped index one step in the knob's direction and refreshes two screens; turning down from the first preset selects the last, turning up from the last selects the first |
| LaunchkeyMini.SelectBackDebounce | zynthian_ctrldev_launchkey_mini_mk4_37.py:400-415 | knob 6 of bank 1 inside 600 ms of the last accepted turn does nothing and keeps the clock; otherwise the clock moves to now and it sends BACK down, ZYNSWITCH [3, 'S'] up, nothing at 64 |
| LaunchkeyMini.DebouncePair | zynthian_ctrldev_launchkey_mini_mk4_37.py:403-406 | after an accepted turn of knob 6, a second turn acts iff it comes at least 600 ms later |
| LaunchkeyMini.BankTwoRemap | zynthian_ctrldev_launchkey_mini_mk4_37.py:437-442 | in bank 2 CC n in 85..92 is forwarded as CC n - 61 (24..31) with the same channel and value |
| LaunchkeyMini.MiniPadColours | zynthian_ctrldev_launchkey_mini_mk4_37.py:141-200 | solo pad 96 + i is 14 iff soloed, 118 iff not, 0 iff the position has no valid channel; mute pad 112 + i is 5, 64 or 0 in the same way |
| LaunchkeyMini.MiniDriver.constructor | zynthian_ctrldev_launchkey_mini_mk4_37.py:61-66 | a new driver is unshifted in bank 1 with no presses, the debounce clock at 0 and nothing sent |
| LaunchkeyMini.MiniDriver.UpdateButtonLeds | zynthian_ctrldev_launchkey_mini_mk4_37.py:95-107 | appends the button-LED writes for the current bank, or nothing without an output port |
| LaunchkeyMini.MiniDriver.UpdatePadLeds | zynthian_ctrldev_launchkey_mini_mk4_37.py:130-203 | appends the pad-LED writes for the current mixer, or nothing without an output port |
| LaunchkeyMini.MiniDriver.Refresh | zynthian_ctrldev_launchkey_mini_mk4_37.py:90-93 | a refresh only relights the pads |
| LaunchkeyMini.MiniDriver.MidiEvent | zynthian_ctrldev_launchkey_mini_mk4_37.py:205-502 | the result, the new fields, the new mixer and the appended outputs are those of the step function on the old state, and the bank stays in 0..2 |
| LaunchkeyMini.MiniDriver.ControlChange | zynthian_ctrldev_launchkey_mini_mk4_37.py:253-494 | the control-change branch changes the fields and the mixer as the control step function says |
| LaunchkeyMini.MiniDriver.Hold | zynthian_ctrldev_launchkey_mini_mk4_37.py:293-314 | updates the press registry and appends the output as the hold step says, with switch 3's LED on a press of 104 |
| LaunchkeyMini.MiniDriver.Knob | zynthian_ctrldev_launchkey_mini_mk4_37.py:317-442 | the knob branch changes the fields and the mixer as the knob step function says |
| LaunchkeyMk4.WrapDelta | zynthian_ctrldev_launchkey_mk4_37.py:355-363 | the delta is congruent to current - last modulo 128; a raw difference in -64..64 (including exactly 64) is kept as it is; for seven-bit samples it lies in -64..64 and is 0 iff the samples are equal |
| LaunchkeyMk4.WrapDeltaRoundTrip | zynthian_ctrldev_launchkey_mk4_37.py:356-363 | the last sample plus the delta, modulo 128, is the new sample |
| LaunchkeyMk4.WrapBoundaries | zynthian_ctrldev_launchkey_mk4_37.py:359-363 | 0 to 127 is one step down and 127 to 0 one step up |
| LaunchkeyMk4.KnobLevel | zynthian_ctrldev_launchkey_mk4_37.py:329 | a knob value maps into [0, 1], with 0 at 0 and 1 at 127 |
| LaunchkeyMk4.KnobStep | zynthian_ctrldev_launchkey_mk4_37.py:317-375 | a knob is consumed iff the bank is 0 or 1, and otherwise changes nothing; it never changes shift, bank or presses, nor mute and solo; it writes a level only for knobs 1..6 of bank 0 and emits only in bank 1 |
| LaunchkeyMk4.ControlStep | zynthian_ctrldev_launchkey_mk4_37.py:251-427 | an unconsumed control change changes nothing; only CC 0x3F changes shift; the mixer changes only for knobs 1..6 of bank 0; the encoder memory changes only for knobs 1..4 of bank 1 (ShiftKey, TransportButtons, CommandButtons and ZeroSwallowed state the button outputs) |
| LaunchkeyMk4.MidiStep | zynthian_ctrldev_launchkey_mk4_37.py:203-435 | an unconsumed event changes nothing; only control changes change the driver's fields; only control changes and note-ons change the mixer |
| LaunchkeyMk4.ControlConsumed | zynthian_ctrldev_launchkey_mk4_37.py:251-435 | with the bank in 0..2, a knob is consumed iff the bank is not 2; any other control change iff mapped or its number or value is 0 |
| LaunchkeyMk4.PassThrough | zynthian_ctrldev_launchkey_mk4_37.py:318-435 | bank-2 knobs and unmapped control changes with non-zero number and value are not consumed and change nothing |
| LaunchkeyMk4.NoteEvents | zynthian_ctrldev_launchkey_mk4_37.py:209-250 | every note is consumed and leaves the driver state; a keyboard note is forwarded unchanged and leaves the mixer |
| LaunchkeyMk4.OtherKinds | zynthian_ctrldev_launchkey_mk4_37.py:429-435 | program change p selects sequencer bank p + 1; any other kind is not consumed and changes nothing |
| LaunchkeyMk4.BankButtons | zynthian_ctrldev_launchkey_mk4_37.py:264-286 | without shift, 51 and 52 step the bank, empty the sync set, keep the encoder memory and relight the bank LEDs; with shift they keep the whole state and emit exactly the arrow |
| LaunchkeyMk4.KnobTracking | zynthian_ctrldev_launchkey_mk4_37.py:317-375 | a knob never changes the bank, adds at most itself to the sync set and never drops an encoder memory entry |
| LaunchkeyMk4.ControlTracking | zynthian_ctrldev_launchkey_mk4_37.py:264-375 | a control change keeps the bank in 0..2; a bank change comes only from an unshifted 51 or 52 and empties the sync set; otherwise the sync set grows by at most the knob |
| LaunchkeyMk4.BankStaysInRing | zynthian_ctrldev_launchkey_mk4_37.py:265-286 | every event keeps the bank in 0..2, and only an unshifted press of 51 or 52 changes it |
| LaunchkeyMk4.TrackingMemories | zynthian_ctrldev_launchkey_mk4_37.py:264-370 | per event: the sync set is emptied on a bank switch and otherwise grows by at most the knob turned; no entry of the encoder memory is ever removed |
| LaunchkeyMk4.HeldSwitch | zynthian_ctrldev_launchkey_mk4_37.py:293-404 | for 105 (lines 293-314) and 74..77 (lines 377-404): a press records now (105 also lights its LED), a matched release emits one classified ZYNSWITCH and forgets the press, an unmatched release changes nothing |
| LaunchkeyMk4.PressThenReleaseEvents | zynthian_ctrldev_launchkey_mk4_37.py:293-404 | for button 105 (lines 293-314) and buttons 74..77 (lines 377-404), a press event then its release event emit exactly one ZYNSWITCH for that switch, classified by the time between them, and restore the registry |
| LaunchkeyMk4.ShiftMetronome | zynthian_ctrldev_launchkey_mk4_37.py:379-383 | with shift, CC 76 is consumed, emits TEMPO only on a press and never touches the press registry |
| LaunchkeyMk4.ShiftKey | zynthian_ctrldev_launchkey_mk4_37.py:289-291 | CC 0x3F is consumed, sets shift to whether its value is non-zero, and changes and sends nothing else |
| LaunchkeyMk4.TransportButtons | zynthian_ctrldev_launchkey_mk4_37.py:407-427 | a PLAY press sends TOGGLE_PLAY, or TOGGLE_MIDI_PLAY while shift is held; RECORD likewise with TOGGLE_RECORD and TOGGLE_MIDI_RECORD; a release is consumed with no effect |
| LaunchkeyMk4.CommandButtons | zynthian_ctrldev_launchkey_mk4_37.py:421-427 | a command-button press sends its LED-on write and then its action, changing no state; a release is consumed with no effect |
| LaunchkeyMk4.ZeroSwallowed | zynthian_ctrldev_launchkey_mk4_37.py:426-427 | a control change with number or value 0 that reaches the last branch (the release of 51/52, PLAY, RECORD or a command button, CC 0, an unmapped number at value 0) is consumed and leaves the state and mixer unchanged and sends nothing |
| LaunchkeyMk4.ShiftThenPlay | zynthian_ctrldev_launchkey_mk4_37.py:289-418 | a shift event followed by a PLAY press toggles the MIDI transport exactly when the shift event held shift down, and leaves only shift changed |
| LaunchkeyMk4.SoftTakeover | zynthian_ctrldev_launchkey_mk4_37.py:319-339 | for knobs 1..6 on a valid chain: unsynced and out of the 0.02 band writes nothing and stays unsynced; unsynced and in the band syncs and writes value/127; synced always writes |
| LaunchkeyMk4.TakeoverThenFollow | zynthian_ctrldev_launchkey_mk4_37.py:331-339 | once a knob has picked up its level, the next value of that knob is written whatever it is |
| LaunchkeyMk4.BankZeroInert | zynthian_ctrldev_launchkey_mk4_37.py:319-341 | in bank 0, knobs 7 and 8 and knobs without a valid chain are consumed with no effect |
| LaunchkeyMk4.ZynpotMemory | zynthian_ctrldev_launchkey_mk4_37.py:344-370 | in bank 1 the first sample of knobs 1..4 only seeds the memory; later ZYNPOT [cc - 21, delta] is sent iff the delta is non-zero, and the memory moves only then |
| LaunchkeyMk4.ZynpotWrapEvents | zynthian_ctrldev_launchkey_mk4_37.py:359-367 | a bank-1 knob going from 127 to 0 sends ZYNPOT +1, from 0 to 127 sends ZYNPOT -1 |
| LaunchkeyMk4.BankOneForward | zynthian_ctrldev_launchkey_mk4_37.py:371-375 | in bank 1 CC 25..28 are forwarded as CC 20..23 with the same channel and value |
| LaunchkeyMk4.Mk4PadColours | zynthian_ctrldev_launchkey_mk4_37.py:138-198 | solo pad 96 + i is 5 iff soloed, 10 iff not, 0 iff the position has no valid channel; mute pad 112 + i is 5, 64 or 0 |
| LaunchkeyMk4.Mk4Driver.constructor | zynthian_ctrldev_launchkey_mk4_37.py:59-64 | a new driver is unshifted in bank 0 with no presses, an empty sync set, an empty encoder memory and nothing sent |
| LaunchkeyMk4.Mk4Driver.UpdateButtonLeds | zynthian_ctrldev_launchkey_mk4_37.py:102-114 | appends the button-LED writes for the current bank, or nothing without an output port |
| LaunchkeyMk4.Mk4Driver.UpdatePadLeds | zynthian_ctrldev_launchkey_mk4_37.py:128-201 | appends the pad-LED writes for the current mixer, or nothing without an output port |
| LaunchkeyMk4.Mk4Driver.Refresh | zynthian_ctrldev_launchkey_mk4_37.py:95-100 | a refresh empties the sync set, keeps every other field and relights the pads |
| LaunchkeyMk4.Mk4Driver.MidiEvent | zynthian_ctrldev_launchkey_mk4_37.py:203-435 | the result, the new fields, the new mixer and the appended outputs are those of the step function on the old state, and the state stays valid |
| LaunchkeyMk4.Mk4Driver.ControlChange | zynthian_ctrldev_launchkey_mk4_37.py:251-427 | the control-change branch changes the fields and the mixer as the control step function says |
| LaunchkeyMk4.Mk4Driver.Hold | zynthian_ctrldev_launchkey_mk4_37.py:293-314 | updates the press registry and appends the output as the hold step says, with switch 3's LED on a press of 105 |
| LaunchkeyMk4.Mk4Driver.Knob | zynthian_ctrldev_launchkey_mk4_37.py:317-375 | the knob branch changes the fields and the mixer as the knob step function says, computing the wrapped delta in place |

## Left out

- Device handshakes and I/O: the DAW-mode and encoder-mode writes and the `sleep` calls in `init` and `end`, and `send_sysex` with its Novation header. These are device set-up with no logic to prove.
- The startup `Timer` that relights the pads after ten seconds, the signal registrations, and the callbacks `update_mixer_strip` and `on_screen_change`. These are concurrency and host plumbing. The callbacks only call `update_pad_leds`, which is modelled.
- The host's chain manager, mixer, sequencer and processors are inputs and logged outputs. What `send_cuia`, `set_preset`, `select_bank` and `write_zynmidi` do inside the host is not modelled.
- The `hasattr` probes and the `try`/`except` blocks. A chain lookup that fails is a position without a valid channel, which gives LED 0 or no action. An exception raised while browsing presets is not modelled: a processor whose `preset_index` exists but is None would raise and be logged by the source, while the model reads a missing index as 0.
- Floating point: levels are real numbers, so the IEEE rounding of `ccval / 127.0`, `delta * 0.01` and the 0.02 comparison is not modelled. Time is whole milliseconds, not seconds as a float.
- The `PAD_COLOURS`, `STARTING_COLOUR` and `STOPPING_COLOUR` constants, which the two files never use, and the inherited pad and mixer base-class behaviour, which is not part of this model.
- LaunchkeyMini.MiniDriver.MidiEvent: requires the bank to be 0, 1 or 2. The source only ever assigns those values. The step function itself handles any bank: an out-of-ring bank returns not consumed for a knob.
- LaunchkeyMk4.Mk4Driver.MidiEvent: requires the bank to be 0, 1 or 2, as for the mini driver.
- Both drivers send LED feedback for switch 3 and for the command buttons with `dev_send_ccontrol_change(self.idev_out, …)` even when `idev_out` is None. The model logs those writes whatever `hasOutput` is. What the device library does with a missing port is not modelled.
- An event too short for the bytes the driver reads makes the source raise `IndexError`. The model requires the bytes to be there (`Readable`).
