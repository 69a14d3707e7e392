/** The Launchkey MK4 37 driver whose knobs send absolute values on CC 21..28.
    Bank 0 sets mixer levels of positions 1..6 with soft takeover, bank 1
    turns knobs 1..4 into relative deltas for the host's four rotary encoders
    and forwards knobs 5..8 as CC 20..23, bank 2 leaves the knobs to the host. */
module LaunchkeyMk4 {
  import opened Surface

  /** Pad velocities: soloed 5, not soloed 10, muted 5, not muted 64. */
  const MK4_PALETTE := Palette(5, 10, 5, 64)

  const SHIFT := 0x3F
  /** The button that acts as ZYNSWITCH 3 with hold classification. */
  const SWITCH3 := 105
  const PLAY := 0x73
  const RECORD := 0x75
  const METRONOME := 76
  /** Knobs 1..8. */
  const KNOB_FIRST := 21
  const KNOB_LAST := 28
  /** Knobs 1..6 of bank 0 drive mixer levels; knobs 1..4 of bank 1 the host's encoders. */
  const LEVEL_KNOB_LAST := 26
  const POT_KNOB_LAST := 24

  const BUTTON_COMMANDS: map<int, string> :=
    map[106 := "PRESET", 107 := "MENU", 0x66 := "ARROW_RIGHT", 0x67 := "ARROW_LEFT", 104 := "BACK"]

  /** Buttons 74..77 and the switch each one classifies. */
  const SWITCH_INDEX: map<int, int> := map[74 := 0, 75 := 1, 76 := 3, 77 := 2]

  // ---------------------------------------------------------------------------
  // Encoder values

  /** The change between two seven-bit knob samples, taken the short way
      round the 0..127 circle: a jump of more than 64 is read as a wrap. */
  function WrapDelta(last: int, current: int): (d: int)
    ensures (d - (current - last)) % 128 == 0
    ensures -64 <= current - last <= 64 ==> d == current - last
    ensures 0 <= last < 128 && 0 <= current < 128 ==> -64 <= d <= 64 && (d == 0 <==> current == last)
  {
    var d := current - last;
    if d > 64 then d - 128
    else if d < -64 then d + 128
    else d
  }

  /** Adding the delta to the last sample, modulo 128, gives the new sample. */
  lemma WrapDeltaRoundTrip(last: int, current: int)
    requires 0 <= last < 128 && 0 <= current < 128
    ensures (last + WrapDelta(last, current)) % 128 == current
  {
    var d := current - last;
    if d > 64 {
      assert last + WrapDelta(last, current) == current - 128;
    } else if d < -64 {
      assert last + WrapDelta(last, current) == current + 128;
    }
  }

  /** The two wraps at the ends of the range are single steps. */
  lemma WrapBoundaries()
    ensures WrapDelta(0, 127) == -1 && WrapDelta(127, 0) == 1
  {
  }

  /** The level a knob value stands for. */
  function KnobLevel(val: int): (r: real)
    requires 0 <= val < 128
    ensures 0.0 <= r <= 1.0
    ensures val == 0 ==> r == 0.0
    ensures val == 127 ==> r == 1.0
  {
    val as real / 127.0
  }

  /** Soft takeover's pickup band: the knob is within 0.02 of the level. */
  predicate InBand(knob: real, level: real)
  {
    -0.02 < knob - level < 0.02
  }

  // ---------------------------------------------------------------------------
  // The driver's state and one event

  datatype Mk4State = Mk4State(
    shift: bool,
    knobBank: int,
    pressTimes: map<int, int>,
    mixerSynced: set<int>,
    lastZynpotValues: map<int, int>)

  const MK4_INIT := Mk4State(false, 0, map[], {}, map[])

  /** What one event does: whether the driver consumed it, the driver's new
      state, the mixer's new state and what was sent out, in order. */
  datatype Step = Step(consumed: bool, state: Mk4State, mixer: MixerState, out: seq<Output>)

  function KnobStep(s: Mk4State, m: MixerState, chains: map<int, Chain>, chan: int, cc: int, val: int): (r: Step)
    requires 0 <= chan < 16 && KNOB_FIRST <= cc <= KNOB_LAST && 0 <= val < 128
    ensures r.consumed <==> s.knobBank == 0 || s.knobBank == 1
    ensures !r.consumed ==> r.state == s && r.mixer == m && r.out == []
    ensures r.state.shift == s.shift && r.state.knobBank == s.knobBank && r.state.pressTimes == s.pressTimes
    ensures r.mixer.mute == m.mute && r.mixer.solo == m.solo
    ensures r.mixer != m ==> s.knobBank == 0 && cc <= LEVEL_KNOB_LAST
    ensures r.out != [] ==> s.knobBank == 1
  {
    if s.knobBank == 0 then
      if cc <= LEVEL_KNOB_LAST then
        match MixerChanAt(chains, cc - KNOB_FIRST)
        case Some(ch) =>
          var level := KnobLevel(val);
          if cc !in s.mixerSynced then
            if InBand(level, LevelOf(m, ch)) then
              Step(true, s.(mixerSynced := s.mixerSynced + {cc}), m.(level := m.level[ch := level]), [])
            else
              Step(true, s, m, [])
          else
            Step(true, s, m.(level := m.level[ch := level]), [])
        case None => Step(true, s, m, [])
      else
        Step(true, s, m, [])
    else if s.knobBank == 1 then
      if cc <= POT_KNOB_LAST then
        if cc !in s.lastZynpotValues then
          Step(true, s.(lastZynpotValues := s.lastZynpotValues[cc := val]), m, [])
        else
          var last := s.lastZynpotValues[cc];
          var d := WrapDelta(last, val);
          if d != 0 then
            Step(true, s.(lastZynpotValues := s.lastZynpotValues[cc := val]), m,
                 [Cuia("ZYNPOT", [Num(cc - KNOB_FIRST), Num(d)])])
          else
            Step(true, s, m, [])
      else
        Step(true, s, m, [ForwardCC(chan, cc - 5, val)])
    else
      Step(false, s, m, [])
  }

  function ControlStep(s: Mk4State, m: MixerState, chains: map<int, Chain>,
                       hasOutput: bool, chan: int, cc: int, val: int, now: int): (r: Step)
    requires 0 <= chan < 16 && 0 <= cc < 128 && 0 <= val < 128
    ensures !r.consumed ==> r.state == s && r.mixer == m && r.out == []
    ensures r.state.shift != s.shift ==> cc == SHIFT
    ensures r.mixer != m ==> s.knobBank == 0 && KNOB_FIRST <= cc <= LEVEL_KNOB_LAST
    ensures r.state.lastZynpotValues != s.lastZynpotValues ==> s.knobBank == 1 && KNOB_FIRST <= cc <= POT_KNOB_LAST
  {
    if cc == BANK_DOWN && val > 0 then
      if s.shift then Step(true, s, m, [Action("ARROW_UP")])
      else
        var s' := s.(knobBank := PrevBank(s.knobBank), mixerSynced := {});
        Step(true, s', m, IfOutput(hasOutput, ButtonLeds(s'.knobBank)))
    else if cc == BANK_UP && val > 0 then
      if s.shift then Step(true, s, m, [Action("ARROW_DOWN")])
      else
        var s' := s.(knobBank := NextBank(s.knobBank), mixerSynced := {});
        Step(true, s', m, IfOutput(hasOutput, ButtonLeds(s'.knobBank)))
    else if cc == SHIFT then
      Step(true, s.(shift := val != 0), m, [])
    else if cc == SWITCH3 then
      var h := HoldStep(s.pressTimes, cc, val, 3, now);
      Step(true, s.(pressTimes := h.pressTimes), m, (if val > 0 then [DevCC(0, cc, LED_ON)] else []) + h.out)
    else if KNOB_FIRST <= cc <= KNOB_LAST then
      KnobStep(s, m, chains, chan, cc, val)
    else if cc in SWITCH_INDEX then
      if s.shift && cc == METRONOME then
        Step(true, s, m, if val > 0 then [Action("TEMPO")] else [])
      else
        var h := HoldStep(s.pressTimes, cc, val, SWITCH_INDEX[cc], now);
        Step(true, s.(pressTimes := h.pressTimes), m, h.out)
    else if cc == PLAY && val > 0 then
      Step(true, s, m, [Action(if s.shift then "TOGGLE_MIDI_PLAY" else "TOGGLE_PLAY")])
    else if cc == RECORD && val > 0 then
      Step(true, s, m, [Action(if s.shift then "TOGGLE_MIDI_RECORD" else "TOGGLE_RECORD")])
    else if cc in BUTTON_COMMANDS && val > 0 then
      Step(true, s, m, [DevCC(0, cc, LED_ON), Action(BUTTON_COMMANDS[cc])])
    else
      Step(cc == 0 || val == 0, s, m, [])
  }

  /** One incoming event, decoded from its status byte. */
  function MidiStep(s: Mk4State, m: MixerState, chains: map<int, Chain>, hasOutput: bool, ev: seq<int>, now: int): (r: Step)
    requires Readable(ev)
    ensures !r.consumed ==> r.state == s && r.mixer == m && r.out == []
    ensures Kind(ev[0]) != CONTROL_CHANGE ==> r.state == s
    ensures Kind(ev[0]) != CONTROL_CHANGE && Kind(ev[0]) != NOTE_ON ==> r.mixer == m
  {
    var kind, chan := Kind(ev[0]), Channel(ev[0]);
    if kind == NOTE_ON || kind == NOTE_OFF then
      var r := NoteStep(MK4_PALETTE, hasOutput, chains, m, ev);
      Step(true, s, r.mixer, r.out)
    else if kind == CONTROL_CHANGE then
      ControlStep(s, m, chains, hasOutput, chan, Data7(ev[1]), Data7(ev[2]), now)
    else if kind == PROGRAM_CHANGE then
      Step(true, s, m, [SelectBank(Data7(ev[1]) + 1)])
    else
      Step(false, s, m, [])
  }

  // ---------------------------------------------------------------------------
  // Properties of one event and of event pairs

  /** The control numbers this driver maps, knobs aside. */
  predicate Mapped(cc: int)
  {
    || cc == BANK_DOWN || cc == BANK_UP || cc == SHIFT || cc == SWITCH3
    || cc == PLAY || cc == RECORD
    || cc in SWITCH_INDEX || cc in BUTTON_COMMANDS
  }

  /** With the bank in the ring, a knob is consumed exactly outside bank 2,
      whatever its value; any other control change exactly when its number
      is mapped, or its number or value is zero. */
  lemma ControlConsumed(s: Mk4State, m: MixerState, chains: map<int, Chain>, hasOutput: bool, ev: seq<int>, now: int)
    requires Readable(ev) && Kind(ev[0]) == CONTROL_CHANGE && 0 <= s.knobBank < BANKS
    ensures var cc, val := Data7(ev[1]), Data7(ev[2]);
            MidiStep(s, m, chains, hasOutput, ev, now).consumed <==>
              if KNOB_FIRST <= cc <= KNOB_LAST then s.knobBank != 2 else Mapped(cc) || cc == 0 || val == 0
  {
  }

  /** Knobs in bank 2, and unmapped control changes with non-zero number and
      value, pass through untouched. */
  lemma PassThrough(s: Mk4State, m: MixerState, chains: map<int, Chain>, hasOutput: bool, ev: seq<int>, now: int)
    requires Readable(ev) && Kind(ev[0]) == CONTROL_CHANGE
    requires var cc, val := Data7(ev[1]), Data7(ev[2]);
             (s.knobBank == 2 && KNOB_FIRST <= cc <= KNOB_LAST)
             || (!Mapped(cc) && !(KNOB_FIRST <= cc <= KNOB_LAST) && cc != 0 && val != 0)
    ensures MidiStep(s, m, chains, hasOutput, ev, now) == Step(false, s, m, [])
  {
  }

  /** Notes are always consumed; keyboard notes go on to the host unchanged. */
  lemma NoteEvents(s: Mk4State, m: MixerState, chains: map<int, Chain>, hasOutput: bool, ev: seq<int>, now: int)
    requires Readable(ev) && (Kind(ev[0]) == NOTE_ON || Kind(ev[0]) == NOTE_OFF)
    ensures var e := MidiStep(s, m, chains, hasOutput, ev, now);
            && e.consumed && e.state == s
            && (!(SOLO_BASE <= Data7(ev[1]) <= 119) ==> e.mixer == m && e.out == [Forward(ev)])
  {
  }

  /** Program change p selects sequencer bank p + 1; kinds the driver does
      not decode pass through. */
  lemma OtherKinds(s: Mk4State, m: MixerState, chains: map<int, Chain>, hasOutput: bool, ev: seq<int>, now: int)
    requires Readable(ev)
    requires Kind(ev[0]) != NOTE_ON && Kind(ev[0]) != NOTE_OFF && Kind(ev[0]) != CONTROL_CHANGE
    ensures Kind(ev[0]) == PROGRAM_CHANGE ==>
              MidiStep(s, m, chains, hasOutput, ev, now) == Step(true, s, m, [SelectBank(Data7(ev[1]) + 1)])
    ensures Kind(ev[0]) != PROGRAM_CHANGE ==>
              MidiStep(s, m, chains, hasOutput, ev, now) == Step(false, s, m, [])
  {
  }

  /** Buttons 51 and 52: without shift they step the bank ring, forget every
      takeover sync and relight the bank indicators; with shift they change
      no state and send an arrow. */
  lemma BankButtons(s: Mk4State, m: MixerState, chains: map<int, Chain>, hasOutput: bool, ev: seq<int>, now: int)
    requires Readable(ev) && Kind(ev[0]) == CONTROL_CHANGE && Data7(ev[2]) > 0
    requires Data7(ev[1]) == BANK_DOWN || Data7(ev[1]) == BANK_UP
    ensures var e, down := MidiStep(s, m, chains, hasOutput, ev, now), Data7(ev[1]) == BANK_DOWN;
            && e.consumed && e.mixer == m
            && (!s.shift ==>
                  && e.state == s.(knobBank := if down then PrevBank(s.knobBank) else NextBank(s.knobBank),
                                   mixerSynced := {})
                  && e.out == IfOutput(hasOutput, ButtonLeds(e.state.knobBank)))
            && (s.shift ==> e.state == s && e.out == [Action(if down then "ARROW_UP" else "ARROW_DOWN")])
  {
  }

  /** A knob never changes the bank; it adds at most itself to the sync set
      and never drops a knob from the encoder memory. */
  lemma KnobTracking(s: Mk4State, m: MixerState, chains: map<int, Chain>, chan: int, cc: int, val: int)
    requires 0 <= chan < 16 && KNOB_FIRST <= cc <= KNOB_LAST && 0 <= val < 128
    ensures var e := KnobStep(s, m, chains, chan, cc, val);
            && e.state.knobBank == s.knobBank
            && s.mixerSynced <= e.state.mixerSynced <= s.mixerSynced + {cc}
            && s.lastZynpotValues.Keys <= e.state.lastZynpotValues.Keys
  {
  }

  /** One control change: the bank moves only on an unshifted press of 51 or
      52, which empties the sync set; otherwise the sync set grows by at most
      the knob turned. */
  lemma ControlTracking(s: Mk4State, m: MixerState, chains: map<int, Chain>,
                        hasOutput: bool, chan: int, cc: int, val: int, now: int)
    requires 0 <= chan < 16 && 0 <= cc < 128 && 0 <= val < 128 && 0 <= s.knobBank < BANKS
    ensures var e := ControlStep(s, m, chains, hasOutput, chan, cc, val, now);
            && 0 <= e.state.knobBank < BANKS
            && (e.state.knobBank != s.knobBank ==>
                  !s.shift && val > 0 && (cc == BANK_DOWN || cc == BANK_UP) && e.state.mixerSynced == {})
            && (e.state.knobBank == s.knobBank ==>
                  s.mixerSynced <= e.state.mixerSynced <= s.mixerSynced + {cc})
            && s.lastZynpotValues.Keys <= e.state.lastZynpotValues.Keys
  {
    if !((cc == BANK_DOWN || cc == BANK_UP) && val > 0) && KNOB_FIRST <= cc <= KNOB_LAST && cc != SHIFT && cc != SWITCH3 {
      KnobTracking(s, m, chains, chan, cc, val);
    }
  }

  /** Every event keeps the bank in {0, 1, 2}; only an unshifted press of 51
      or 52 changes it. */
  lemma BankStaysInRing(s: Mk4State, m: MixerState, chains: map<int, Chain>, hasOutput: bool, ev: seq<int>, now: int)
    requires Readable(ev) && 0 <= s.knobBank < BANKS
    ensures 0 <= MidiStep(s, m, chains, hasOutput, ev, now).state.knobBank < BANKS
    ensures MidiStep(s, m, chains, hasOutput, ev, now).state.knobBank != s.knobBank ==>
              && Kind(ev[0]) == CONTROL_CHANGE && !s.shift && Data7(ev[2]) > 0
              && (Data7(ev[1]) == BANK_DOWN || Data7(ev[1]) == BANK_UP)
  {
    if Kind(ev[0]) == CONTROL_CHANGE {
      ControlTracking(s, m, chains, hasOutput, Channel(ev[0]), Data7(ev[1]), Data7(ev[2]), now);
    }
  }

  /** The sync set only grows, by at most the knob just picked up, except on
      a bank switch, which empties it. The encoder memory never loses a knob. */
  lemma TrackingMemories(s: Mk4State, m: MixerState, chains: map<int, Chain>, hasOutput: bool, ev: seq<int>, now: int)
    requires Readable(ev) && 0 <= s.knobBank < BANKS
    ensures var e := MidiStep(s, m, chains, hasOutput, ev, now);
            && (e.state.knobBank == s.knobBank ==>
                  s.mixerSynced <= e.state.mixerSynced
                  && (Kind(ev[0]) == CONTROL_CHANGE ==> e.state.mixerSynced <= s.mixerSynced + {Data7(ev[1])})
                  && (Kind(ev[0]) != CONTROL_CHANGE ==> e.state.mixerSynced == s.mixerSynced))
            && (e.state.knobBank != s.knobBank ==> e.state.mixerSynced == {})
            && s.lastZynpotValues.Keys <= e.state.lastZynpotValues.Keys
  {
    if Kind(ev[0]) == CONTROL_CHANGE {
      ControlTracking(s, m, chains, hasOutput, Channel(ev[0]), Data7(ev[1]), Data7(ev[2]), now);
    }
  }

  /** The switch a held button stands for: 105 is switch 3, 74..77 map through SWITCH_INDEX. */
  predicate HeldButton(s: Mk4State, cc: int)
  {
    cc == SWITCH3 || (cc in SWITCH_INDEX && !(s.shift && cc == METRONOME))
  }

  function SwitchOf(cc: int): int
    requires cc == SWITCH3 || cc in SWITCH_INDEX
  {
    if cc == SWITCH3 then 3 else SWITCH_INDEX[cc]
  }

  /** Held buttons: a press records the time, a release with a recorded press
      emits one classified ZYNSWITCH and forgets the press, a release without
      one changes nothing; nothing but the registry changes. */
  lemma HeldSwitch(s: Mk4State, m: MixerState, chains: map<int, Chain>, hasOutput: bool, ev: seq<int>, now: int)
    requires Readable(ev) && Kind(ev[0]) == CONTROL_CHANGE && HeldButton(s, Data7(ev[1]))
    ensures var cc, val, e := Data7(ev[1]), Data7(ev[2]), MidiStep(s, m, chains, hasOutput, ev, now);
            && e.consumed && e.mixer == m && e.state == s.(pressTimes := e.state.pressTimes)
            && (val > 0 ==>
                  e.state.pressTimes == s.pressTimes[cc := now]
                  && e.out == if cc == SWITCH3 then [DevCC(0, cc, LED_ON)] else [])
            && (val == 0 && cc in s.pressTimes ==>
                  e.state.pressTimes == s.pressTimes - {cc}
                  && e.out == [ZynSwitch(SwitchOf(cc), Classify(now - s.pressTimes[cc]))])
            && (val == 0 && cc !in s.pressTimes ==> e.state == s && e.out == [])
  {
  }

  /** A press at t1 and its release at t2 send exactly one ZYNSWITCH,
      classified by t2 - t1, and leave the registry without that button. */
  lemma PressThenReleaseEvents(s: Mk4State, m: MixerState, chains: map<int, Chain>, hasOutput: bool,
                               press: seq<int>, release: seq<int>, t1: int, t2: int)
    requires Readable(press) && Kind(press[0]) == CONTROL_CHANGE && Data7(press[2]) > 0
    requires Readable(release) && Kind(release[0]) == CONTROL_CHANGE && Data7(release[2]) == 0
    requires Data7(press[1]) == Data7(release[1]) && HeldButton(s, Data7(press[1]))
    ensures var cc := Data7(press[1]);
            var e1 := MidiStep(s, m, chains, hasOutput, press, t1);
            var e2 := MidiStep(e1.state, e1.mixer, chains, hasOutput, release, t2);
            && e2.state == s.(pressTimes := s.pressTimes - {cc}) && e2.mixer == m
            && e2.out == [ZynSwitch(SwitchOf(cc), Classify(t2 - t1))]
  {
    var cc := Data7(press[1]);
    HeldSwitch(s, m, chains, hasOutput, press, t1);
    var e1 := MidiStep(s, m, chains, hasOutput, press, t1);
    assert HeldButton(e1.state, cc);
    HeldSwitch(e1.state, e1.mixer, chains, hasOutput, release, t2);
  }

  /** Shift with the metronome button: TEMPO on press, nothing on release,
      the press registry untouched. */
  lemma ShiftMetronome(s: Mk4State, m: MixerState, chains: map<int, Chain>, hasOutput: bool, ev: seq<int>, now: int)
    requires Readable(ev) && Kind(ev[0]) == CONTROL_CHANGE && Data7(ev[1]) == METRONOME && s.shift
    ensures MidiStep(s, m, chains, hasOutput, ev, now)
            == Step(true, s, m, if Data7(ev[2]) > 0 then [Action("TEMPO")] else [])
  {
  }

  /** The shift key: shift is held exactly while its last value was non-zero. */
  lemma ShiftKey(s: Mk4State, m: MixerState, chains: map<int, Chain>, hasOutput: bool, ev: seq<int>, now: int)
    requires Readable(ev) && Kind(ev[0]) == CONTROL_CHANGE && Data7(ev[1]) == SHIFT
    ensures MidiStep(s, m, chains, hasOutput, ev, now) == Step(true, s.(shift := Data7(ev[2]) != 0), m, [])
  {
  }

  /** PLAY and RECORD toggle the audio transport, or the MIDI one while shift
      is held, on a press; their release is consumed with no effect. */
  lemma TransportButtons(s: Mk4State, m: MixerState, chains: map<int, Chain>, hasOutput: bool, ev: seq<int>, now: int)
    requires Readable(ev) && Kind(ev[0]) == CONTROL_CHANGE && (Data7(ev[1]) == PLAY || Data7(ev[1]) == RECORD)
    ensures var cc, e := Data7(ev[1]), MidiStep(s, m, chains, hasOutput, ev, now);
            && (Data7(ev[2]) > 0 && cc == PLAY ==>
                  e == Step(true, s, m, [Action(if s.shift then "TOGGLE_MIDI_PLAY" else "TOGGLE_PLAY")]))
            && (Data7(ev[2]) > 0 && cc == RECORD ==>
                  e == Step(true, s, m, [Action(if s.shift then "TOGGLE_MIDI_RECORD" else "TOGGLE_RECORD")]))
            && (Data7(ev[2]) == 0 ==> e == Step(true, s, m, []))
  {
  }

  /** A command button lights its LED and then sends its action on a press;
      its release is consumed with no effect. */
  lemma CommandButtons(s: Mk4State, m: MixerState, chains: map<int, Chain>, hasOutput: bool, ev: seq<int>, now: int)
    requires Readable(ev) && Kind(ev[0]) == CONTROL_CHANGE && Data7(ev[1]) in BUTTON_COMMANDS
    ensures var cc, e := Data7(ev[1]), MidiStep(s, m, chains, hasOutput, ev, now);
            && (Data7(ev[2]) > 0 ==> e == Step(true, s, m, [DevCC(0, cc, LED_ON), Action(BUTTON_COMMANDS[cc])]))
            && (Data7(ev[2]) == 0 ==> e == Step(true, s, m, []))
  {
  }
  /** A control change with number or value 0 that no earlier branch takes
      (a release of 51/52, PLAY, RECORD or a command button, CC 0, or an
      unmapped number at value 0) is consumed and does nothing else. */
  lemma ZeroSwallowed(s: Mk4State, m: MixerState, chains: map<int, Chain>, hasOutput: bool, ev: seq<int>, now: int)
    requires Readable(ev) && Kind(ev[0]) == CONTROL_CHANGE && (Data7(ev[1]) == 0 || Data7(ev[2]) == 0)
    requires Data7(ev[1]) != SHIFT && Data7(ev[1]) != SWITCH3 && Data7(ev[1]) !in SWITCH_INDEX
    requires !(KNOB_FIRST <= Data7(ev[1]) <= KNOB_LAST)
    ensures MidiStep(s, m, chains, hasOutput, ev, now) == Step(true, s, m, [])
  {
  }


  /** Shift pressed (or released) and then PLAY pressed: the MIDI transport is
      toggled exactly when the shift event held shift down. */
  lemma ShiftThenPlay(s: Mk4State, m: MixerState, chains: map<int, Chain>, hasOutput: bool, shiftEv: seq<int>, play: seq<int>, t1: int, t2: int)
    requires Readable(shiftEv) && Kind(shiftEv[0]) == CONTROL_CHANGE && Data7(shiftEv[1]) == SHIFT
    requires Readable(play) && Kind(play[0]) == CONTROL_CHANGE && Data7(play[1]) == PLAY && Data7(play[2]) > 0
    ensures var e1 := MidiStep(s, m, chains, hasOutput, shiftEv, t1);
            var e2 := MidiStep(e1.state, e1.mixer, chains, hasOutput, play, t2);
            && e2.state == s.(shift := Data7(shiftEv[2]) != 0) && e2.mixer == m
            && e2.out == [Action(if Data7(shiftEv[2]) != 0 then "TOGGLE_MIDI_PLAY" else "TOGGLE_PLAY")]
  {
    ShiftKey(s, m, chains, hasOutput, shiftEv, t1);
    var e1 := MidiStep(s, m, chains, hasOutput, shiftEv, t1);
    TransportButtons(e1.state, e1.mixer, chains, hasOutput, play, t2);
  }

  /** Soft takeover on bank-0 knobs 1..6 with a valid chain: an unsynced
      knob out of the 0.02 band writes nothing and stays unsynced; inside the
      band it syncs and writes its level; a synced knob always writes. */
  lemma SoftTakeover(s: Mk4State, m: MixerState, chains: map<int, Chain>, hasOutput: bool, ev: seq<int>, now: int)
    requires Readable(ev) && Kind(ev[0]) == CONTROL_CHANGE && s.knobBank == 0
    requires KNOB_FIRST <= Data7(ev[1]) <= LEVEL_KNOB_LAST && MixerChanAt(chains, Data7(ev[1]) - KNOB_FIRST).Some?
    ensures var cc, val, e := Data7(ev[1]), Data7(ev[2]), MidiStep(s, m, chains, hasOutput, ev, now);
            var ch := MixerChanAt(chains, cc - KNOB_FIRST).value;
            var written := m.(level := m.level[ch := val as real / 127.0]);
            && e.consumed && e.out == []
            && (cc !in s.mixerSynced && !InBand(val as real / 127.0, LevelOf(m, ch)) ==> e.state == s && e.mixer == m)
            && (cc !in s.mixerSynced && InBand(val as real / 127.0, LevelOf(m, ch)) ==>
                  e.state == s.(mixerSynced := s.mixerSynced + {cc}) && e.mixer == written)
            && (cc in s.mixerSynced ==> e.state == s && e.mixer == written)
  {
  }

  /** Once a knob has picked up its level, its next value is written
      whatever it is. */
  lemma TakeoverThenFollow(s: Mk4State, m: MixerState, chains: map<int, Chain>, hasOutput: bool,
                           ev1: seq<int>, ev2: seq<int>, t1: int, t2: int)
    requires Readable(ev1) && Kind(ev1[0]) == CONTROL_CHANGE && s.knobBank == 0
    requires Readable(ev2) && Kind(ev2[0]) == CONTROL_CHANGE && Data7(ev2[1]) == Data7(ev1[1])
    requires KNOB_FIRST <= Data7(ev1[1]) <= LEVEL_KNOB_LAST && MixerChanAt(chains, Data7(ev1[1]) - KNOB_FIRST).Some?
    requires InBand(Data7(ev1[2]) as real / 127.0, LevelOf(m, MixerChanAt(chains, Data7(ev1[1]) - KNOB_FIRST).value))
    ensures var ch := MixerChanAt(chains, Data7(ev1[1]) - KNOB_FIRST).value;
            var e1 := MidiStep(s, m, chains, hasOutput, ev1, t1);
            var e2 := MidiStep(e1.state, e1.mixer, chains, hasOutput, ev2, t2);
            LevelOf(e1.mixer, ch) == Data7(ev1[2]) as real / 127.0
            && LevelOf(e2.mixer, ch) == Data7(ev2[2]) as real / 127.0
  {
    SoftTakeover(s, m, chains, hasOutput, ev1, t1);
    var e1 := MidiStep(s, m, chains, hasOutput, ev1, t1);
    SoftTakeover(e1.state, e1.mixer, chains, hasOutput, ev2, t2);
  }

  /** Bank-0 knobs 7 and 8, and knobs on a position without a valid mixer
      channel, are consumed with no effect. */
  lemma BankZeroInert(s: Mk4State, m: MixerState, chains: map<int, Chain>, hasOutput: bool, ev: seq<int>, now: int)
    requires Readable(ev) && Kind(ev[0]) == CONTROL_CHANGE && s.knobBank == 0
    requires var cc := Data7(ev[1]);
             LEVEL_KNOB_LAST < cc <= KNOB_LAST || (KNOB_FIRST <= cc <= LEVEL_KNOB_LAST && MixerChanAt(chains, cc - KNOB_FIRST).None?)
    ensures MidiStep(s, m, chains, hasOutput, ev, now) == Step(true, s, m, [])
  {
  }

  /** Bank-1 knobs 1..4: the first sample only seeds the memory; afterwards
      ZYNPOT [cc - 21, delta] is sent exactly when the wrapped delta is not
      zero, and the memory moves to the new sample only then. */
  lemma ZynpotMemory(s: Mk4State, m: MixerState, chains: map<int, Chain>, hasOutput: bool, ev: seq<int>, now: int)
    requires Readable(ev) && Kind(ev[0]) == CONTROL_CHANGE && s.knobBank == 1
    requires KNOB_FIRST <= Data7(ev[1]) <= POT_KNOB_LAST
    ensures var cc, val, e := Data7(ev[1]), Data7(ev[2]), MidiStep(s, m, chains, hasOutput, ev, now);
            && e.consumed && e.mixer == m
            && (cc !in s.lastZynpotValues ==>
                  e.out == [] && e.state == s.(lastZynpotValues := s.lastZynpotValues[cc := val]))
            && (cc in s.lastZynpotValues ==>
                  var d := WrapDelta(s.lastZynpotValues[cc], val);
                  && (d != 0 ==> e.out == [Cuia("ZYNPOT", [Num(cc - KNOB_FIRST), Num(d)])]
                                 && e.state == s.(lastZynpotValues := s.lastZynpotValues[cc := val]))
                  && (d == 0 ==> e.out == [] && e.state == s))
  {
  }

  /** Turning a bank-1 knob from 127 across to 0 is one step up, from 0 to
      127 one step down. */
  lemma ZynpotWrapEvents(s: Mk4State, m: MixerState, chains: map<int, Chain>, hasOutput: bool, ev: seq<int>, now: int)
    requires Readable(ev) && Kind(ev[0]) == CONTROL_CHANGE && s.knobBank == 1
    requires KNOB_FIRST <= Data7(ev[1]) <= POT_KNOB_LAST && Data7(ev[1]) in s.lastZynpotValues
    ensures var cc, val, e := Data7(ev[1]), Data7(ev[2]), MidiStep(s, m, chains, hasOutput, ev, now);
            && (s.lastZynpotValues[cc] == 127 && val == 0 ==> e.out == [Cuia("ZYNPOT", [Num(cc - KNOB_FIRST), Num(1)])])
            && (s.lastZynpotValues[cc] == 0 && val == 127 ==> e.out == [Cuia("ZYNPOT", [Num(cc - KNOB_FIRST), Num(-1)])])
  {
    WrapBoundaries();
  }

  /** Bank-1 knobs 5..8 forward CC 25..28 as CC 20..23 on the same channel
      with the same value. */
  lemma BankOneForward(s: Mk4State, m: MixerState, chains: map<int, Chain>, hasOutput: bool, ev: seq<int>, now: int)
    requires Readable(ev) && Kind(ev[0]) == CONTROL_CHANGE && s.knobBank == 1
    requires POT_KNOB_LAST < Data7(ev[1]) <= KNOB_LAST
    ensures var cc := Data7(ev[1]);
            && 20 <= cc - 5 <= 23
            && MidiStep(s, m, chains, hasOutput, ev, now)
               == Step(true, s, m, [Forward([0xB0 + Channel(ev[0]), cc - 5, Data7(ev[2])])])
  {
  }

  /** This driver's pad colours: solo pads 5 soloed, 10 not, mute pads 5
      muted, 64 not, and 0 for a position without a valid mixer channel. */
  lemma Mk4PadColours(chains: map<int, Chain>, m: MixerState, i: int)
    requires 0 <= i < PADS
    ensures var w, ch := PadLeds(MK4_PALETTE, chains, m), MixerChanAt(chains, i);
            && |w| == 2 * PADS
            && w[i].note == 96 + i && w[PADS + i].note == 112 + i
            && (w[i].vel == 0 <==> ch.None?)
            && (w[i].vel == 5 <==> ch.Some? && IsSoloed(m, ch.value))
            && (w[i].vel == 10 <==> ch.Some? && !IsSoloed(m, ch.value))
            && (w[PADS + i].vel == 0 <==> ch.None?)
            && (w[PADS + i].vel == 5 <==> ch.Some? && IsMuted(m, ch.value))
            && (w[PADS + i].vel == 64 <==> ch.Some? && !IsMuted(m, ch.value))
  {
    PadLedAt(MK4_PALETTE, chains, m, i);
  }

  // ---------------------------------------------------------------------------
  // The driver object

  class Mk4Driver {
    /** False when the device has no output port (idev_out is None). */
    const hasOutput: bool
    const zynmixer: Mixer
    var shift: bool
    var knobBank: int
    var pressTimes: map<int, int>
    var mixerSynced: set<int>
    var lastZynpotValues: map<int, int>
    /** Everything sent to the device and the host, in order. */
    var log: seq<Output>

    /** The bank is in the ring and every remembered knob sample is seven-bit. */
    ghost predicate Valid()
      reads this
    {
      && 0 <= knobBank < BANKS
      && forall cc :: cc in lastZynpotValues ==> 0 <= lastZynpotValues[cc] < 128
    }

    function State(): Mk4State
      reads this
    {
      Mk4State(shift, knobBank, pressTimes, mixerSynced, lastZynpotValues)
    }

    constructor (mixer: Mixer, hasOutput: bool)
      ensures Valid() && State() == MK4_INIT && log == []
      ensures zynmixer == mixer && this.hasOutput == hasOutput
    {
      this.hasOutput := hasOutput;
      zynmixer := mixer;
      shift := false;
      pressTimes := map[];
      knobBank := 0;
      mixerSynced := {};
      lastZynpotValues := map[];
      log := [];
    }

    method UpdateButtonLeds()
      modifies this`log
      ensures log == old(log) + IfOutput(hasOutput, ButtonLeds(knobBank))
    {
      if !hasOutput {
        return;
      }
      var w := ButtonLedWrites(knobBank);
      log := log + w;
    }

    method UpdatePadLeds(chains: map<int, Chain>)
      modifies this`log
      ensures log == old(log) + IfOutput(hasOutput, PadLeds(MK4_PALETTE, chains, zynmixer.Snapshot()))
    {
      if !hasOutput {
        return;
      }
      var w := PadLedWrites(MK4_PALETTE, chains, zynmixer.Snapshot());
      log := log + w;
    }

    /** Called when the screen changes: every knob must pick up its level
        again, and the pads are relit. */
    method Refresh(chains: map<int, Chain>)
      requires Valid()
      modifies this`mixerSynced, this`log
      ensures Valid() && State() == old(State()).(mixerSynced := {})
      ensures log == old(log) + IfOutput(hasOutput, PadLeds(MK4_PALETTE, chains, zynmixer.Snapshot()))
    {
      mixerSynced := {};
      UpdatePadLeds(chains);
    }

    method MidiEvent(ev: seq<int>, now: int, chains: map<int, Chain>) returns (consumed: bool)
      requires Valid() && Readable(ev)
      modifies this, zynmixer
      ensures Valid()
      ensures var e := MidiStep(old(State()), old(zynmixer.Snapshot()), chains, hasOutput, ev, now);
              consumed == e.consumed && State() == e.state && zynmixer.Snapshot() == e.mixer
              && log == old(log) + e.out
    {
      var evtype, evChan := Kind(ev[0]), Channel(ev[0]);
      if evtype == NOTE_ON || evtype == NOTE_OFF {
        var out := HandleNote(zynmixer, MK4_PALETTE, hasOutput, chains, ev);
        log := log + out;
        return true;
      } else if evtype == CONTROL_CHANGE {
        consumed := ControlChange(evChan, Data7(ev[1]), Data7(ev[2]), now, chains);
        return;
      } else if evtype == PROGRAM_CHANGE {
        log := log + [SelectBank(Data7(ev[1]) + 1)];
        return true;
      }
      return false;
    }

    method ControlChange(chan: int, cc: int, val: int, now: int, chains: map<int, Chain>)
      returns (consumed: bool)
      requires Valid() && 0 <= chan < 16 && 0 <= cc < 128 && 0 <= val < 128
      modifies this, zynmixer
      ensures Valid()
      ensures var e := ControlStep(old(State()), old(zynmixer.Snapshot()), chains, hasOutput, chan, cc, val, now);
              consumed == e.consumed && State() == e.state && zynmixer.Snapshot() == e.mixer
              && log == old(log) + e.out
    {
      if cc == BANK_DOWN && val > 0 {
        if shift {
          log := log + [Action("ARROW_UP")];
        } else {
          knobBank := (knobBank - 1) % BANKS;
          mixerSynced := {};
          UpdateButtonLeds();
        }
        return true;
      } else if cc == BANK_UP && val > 0 {
        if shift {
          log := log + [Action("ARROW_DOWN")];
        } else {
          knobBank := (knobBank + 1) % BANKS;
          mixerSynced := {};
          UpdateButtonLeds();
        }
        return true;
      } else if cc == SHIFT {
        shift := val != 0;
        return true;
      } else if cc == SWITCH3 {
        Hold(cc, val, 3, now);
        return true;
      } else if KNOB_FIRST <= cc <= KNOB_LAST {
        consumed := Knob(chan, cc, val, chains);
        return;
      } else if cc in SWITCH_INDEX {
        if shift && cc == METRONOME {
          if val > 0 {
            log := log + [Action("TEMPO")];
          }
          return true;
        }
        Hold(cc, val, SWITCH_INDEX[cc], now);
        return true;
      } else if cc == PLAY && val > 0 {
        log := log + [Action(if shift then "TOGGLE_MIDI_PLAY" else "TOGGLE_PLAY")];
        return true;
      } else if cc == RECORD && val > 0 {
        log := log + [Action(if shift then "TOGGLE_MIDI_RECORD" else "TOGGLE_RECORD")];
        return true;
      } else if cc in BUTTON_COMMANDS && val > 0 {
        log := log + [DevCC(0, cc, LED_ON), Action(BUTTON_COMMANDS[cc])];
        return true;
      } else if cc == 0 || val == 0 {
        return true;
      }
      return false;
    }

    /** Press/release of a held switch; the switch-3 button also lights on press. */
    method Hold(cc: int, val: int, index: int, now: int)
      modifies this`pressTimes, this`log
      ensures var h := HoldStep(old(pressTimes), cc, val, index, now);
              pressTimes == h.pressTimes
              && log == old(log) + (if cc == SWITCH3 && val > 0 then [DevCC(0, cc, LED_ON)] else []) + h.out
    {
      if val > 0 {
        pressTimes := pressTimes[cc := now];
        if cc == SWITCH3 {
          log := log + [DevCC(0, cc, LED_ON)];
        }
      } else if cc in pressTimes {
        var duration := now - pressTimes[cc];
        var h := if duration < SHORT_LIMIT then Short else if duration < BOLD_LIMIT then Bold else Long;
        log := log + [ZynSwitch(index, h)];
        pressTimes := pressTimes - {cc};
      }
    }

    method Knob(chan: int, cc: int, val: int, chains: map<int, Chain>) returns (consumed: bool)
      requires Valid() && 0 <= chan < 16 && KNOB_FIRST <= cc <= KNOB_LAST && 0 <= val < 128
      modifies this, zynmixer
      ensures Valid()
      ensures var e := KnobStep(old(State()), old(zynmixer.Snapshot()), chains, chan, cc, val);
              consumed == e.consumed && State() == e.state && zynmixer.Snapshot() == e.mixer
              && log == old(log) + e.out
    {
      if knobBank == 0 {
        if cc <= LEVEL_KNOB_LAST {
          var mixerChan := MixerChanAt(chains, cc - KNOB_FIRST);
          if mixerChan.Some? {
            var current := LevelOf(zynmixer.Snapshot(), mixerChan.value);
            var level := val as real / 127.0;
            if cc !in mixerSynced {
              if -0.02 < level - current < 0.02 {
                mixerSynced := mixerSynced + {cc};
                zynmixer.SetLevel(mixerChan.value, level);
              }
            } else {
              zynmixer.SetLevel(mixerChan.value, level);
            }
          }
        }
        return true;
      } else if knobBank == 1 {
        if cc <= POT_KNOB_LAST {
          if cc !in lastZynpotValues {
            lastZynpotValues := lastZynpotValues[cc := val];
            return true;
          }
          var delta := val - lastZynpotValues[cc];
          if delta > 64 {
            delta := delta - 128;
          } else if delta < -64 {
            delta := delta + 128;
          }
          if delta != 0 {
            log := log + [Cuia("ZYNPOT", [Num(cc - KNOB_FIRST), Num(delta)])];
            lastZynpotValues := lastZynpotValues[cc := val];
          }
          return true;
        } else {
          log := log + [ForwardCC(chan, cc - 5, val)];
          return true;
        }
      }
      return false;
    }
  }
}
