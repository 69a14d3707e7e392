/** The Launchkey Mini MK4 37 driver whose encoders run in Novation's
    Transport (relative) mode: knobs send CC 85..92 with relative values.
    Bank 0 nudges mixer levels, bank 1 drives the host's four rotary
    encoders plus preset browsing, select/back and arrows, bank 2 forwards
    the knobs as CC 24..31. */
module LaunchkeyMini {
  import opened Surface

  /** Pad velocities: soloed 14, not soloed 118, muted 5, not muted 64. */
  const MINI_PALETTE := Palette(14, 118, 5, 64)

  const SHIFT := 0x3F
  /** The button that acts as ZYNSWITCH 3 with hold classification. */
  const SWITCH3 := 104
  const PLAY := 0x73
  const RECORD := 0x75
  const METRONOME := 76
  /** Knobs 1..8 in Transport mode. */
  const KNOB_FIRST := 85
  const KNOB_LAST := 92
  /** Knob 6's cool-down, in milliseconds. */
  const DEBOUNCE := 600

  const BUTTON_COMMANDS: map<int, string> :=
    map[107 := "PRESET", 105 := "MENU", 0x66 := "ARROW_RIGHT", 0x67 := "ARROW_LEFT", 106 := "BACK"]

  /** Buttons 74..77 and the switch each one classifies. */
  const SWITCH_INDEX: map<int, int> := map[74 := 0, 75 := 1, 76 := 3, 77 := 2]

  // ---------------------------------------------------------------------------
  // Encoder values

  /** The Transport-mode delta of a knob value, as the driver computes it:
      below 64 turns down, above 64 turns up, 64 does not move; 1 and 127
      are taken as single steps, every other value as its distance from 64. */
  function TransportDelta(v: int): (d: int)
    requires 0 <= v < 128
    ensures d == 0 <==> v == 64
    ensures d < 0 <==> v < 64
    ensures d > 0 <==> v > 64
    ensures v == 1 ==> d == -1
    ensures v == 127 ==> d == 1
    ensures v != 1 && v != 127 ==> d == v - 64
    ensures v == 0 ==> d == -64
  {
    if v == 1 || v < 64 then
      (if v == 1 then -1 else -(64 - v))
    else if v == 127 || v > 64 then
      (if v == 127 then 1 else v - 64)
    else
      0
  }

  function Sign(x: int): int
  {
    if x < 0 then -1 else if x > 0 then 1 else 0
  }

  /** The direction knobs 5..8 of bank 1 read from a value: only its sign. */
  function Direction(v: int): (d: int)
    requires 0 <= v < 128
    ensures d == Sign(TransportDelta(v))
  {
    if v == 1 || v < 64 then -1
    else if v == 127 || v > 64 then 1
    else 0
  }

  /** The mixer level after a bank-0 knob moves by `delta`: one hundredth per
      step, clamped to [0, 1]. */
  function Nudge(level: real, delta: int): (r: real)
    ensures 0.0 <= r <= 1.0
    ensures 0.0 <= level + delta as real / 100.0 <= 1.0 ==> r == level + delta as real / 100.0
    ensures level + delta as real / 100.0 < 0.0 ==> r == 0.0
    ensures level + delta as real / 100.0 > 1.0 ==> r == 1.0
  {
    var target := level + (delta as real) * 0.01;
    if target > 1.0 then 1.0 else if target < 0.0 then 0.0 else target
  }

  /** A turn up never lowers a level inside [0, 1], a turn down never raises it. */
  lemma NudgeDirection(level: real, delta: int)
    requires 0.0 <= level <= 1.0
    ensures delta > 0 ==> Nudge(level, delta) >= level
    ensures delta < 0 ==> Nudge(level, delta) <= level
    ensures delta == 0 ==> Nudge(level, delta) == level
  {
  }

  /** The preset index after stepping by `delta` through `count` presets:
      below the first wraps to the last, past the last wraps to the first. */
  function PresetWrap(index: int, delta: int, count: int): (r: int)
    requires count > 0
    ensures 0 <= r < count
    ensures 0 <= index + delta < count ==> r == index + delta
    ensures index + delta < 0 ==> r == count - 1
    ensures index + delta >= count ==> r == 0
  {
    var next := index + delta;
    if next < 0 then count - 1
    else if next >= count then 0
    else next
  }

  /** Stepping down from the first preset and back up from there returns to it. */
  lemma PresetWrapRoundTrip(count: int)
    requires count > 0
    ensures PresetWrap(PresetWrap(0, -1, count), 1, count) == 0
    ensures PresetWrap(PresetWrap(count - 1, 1, count), -1, count) == count - 1
  {
  }

  // ---------------------------------------------------------------------------
  // The driver's state and one event

  /** The current processor of the host's active chain: how many presets it
      has and its preset index, when it has one. */
  datatype Processor = Processor(presetCount: nat, presetIndex: Option<int>)

  datatype MiniState = MiniState(shift: bool, knobBank: int, pressTimes: map<int, int>, lastSelectBackTime: int)

  const MINI_INIT := MiniState(false, 1, map[], 0)

  /** What one event does: whether the driver consumed it, the driver's new
      state, the mixer's new state and what was sent out, in order. */
  datatype Step = Step(consumed: bool, state: MiniState, mixer: MixerState, out: seq<Output>)

  /** Knob 5 of bank 1: step the active processor's preset and refresh two screens. */
  function BrowsePreset(active: Option<Processor>, delta: int): (r: seq<Output>)
    ensures r != [] <==> delta != 0 && active.Some? && active.value.presetCount > 0
    ensures r != [] ==> |r| == 3 && r[0].SetPreset? && 0 <= r[0].index < active.value.presetCount
  {
    if delta != 0 && active.Some? && active.value.presetCount > 0 then
      var current := match active.value.presetIndex case Some(i) => i case None => 0;
      [ SetPreset(PresetWrap(current, delta, active.value.presetCount)),
        Cuia("refresh_screen", [Text("control")]),
        Cuia("refresh_screen", [Text("audio_mixer")]) ]
    else []
  }

  /** A knob turned down emits `down`, turned up emits `up`, value 64 nothing. */
  function Turn(val: int, down: Output, up: Output): (r: seq<Output>)
    requires 0 <= val < 128
    ensures val < 64 ==> r == [down]
    ensures val > 64 ==> r == [up]
    ensures val == 64 ==> r == []
  {
    var d := Direction(val);
    if d < 0 then [down] else if d > 0 then [up] else []
  }

  function KnobStep(s: MiniState, m: MixerState, chains: map<int, Chain>, active: Option<Processor>,
                    chan: int, cc: int, val: int, now: int): (r: Step)
    requires 0 <= chan < 16 && KNOB_FIRST <= cc <= KNOB_LAST && 0 <= val < 128
    ensures r.consumed <==> 0 <= s.knobBank < BANKS
    ensures !r.consumed ==> r.state == s && r.mixer == m && r.out == []
    ensures r.state == s.(lastSelectBackTime := r.state.lastSelectBackTime)
    ensures r.state.lastSelectBackTime != s.lastSelectBackTime ==> s.knobBank == 1 && cc == 90 && r.state.lastSelectBackTime == now
    ensures r.mixer.mute == m.mute && r.mixer.solo == m.solo
  {
    if s.knobBank == 0 then
      match MixerChanAt(chains, cc - KNOB_FIRST)
      case Some(ch) =>
        var d := TransportDelta(val);
        if d != 0 then Step(true, s, m.(level := m.level[ch := Nudge(LevelOf(m, ch), d)]), [])
        else Step(true, s, m, [])
      case None => Step(true, s, m, [])
    else if s.knobBank == 1 then
      if cc < 89 then
        var d := TransportDelta(val);
        Step(true, s, m, if d != 0 then [Cuia("ZYNPOT", [Num(cc - KNOB_FIRST), Num(d)])] else [])
      else if cc == 89 then
        Step(true, s, m, BrowsePreset(active, Direction(val)))
      else if cc == 90 then
        if now - s.lastSelectBackTime < DEBOUNCE then Step(true, s, m, [])
        else Step(true, s.(lastSelectBackTime := now), m, Turn(val, Action("BACK"), ZynSwitch(3, Short)))
      else if cc == 91 then
        Step(true, s, m, Turn(val, Action("ARROW_LEFT"), Action("ARROW_RIGHT")))
      else
        Step(true, s, m, Turn(val, Action("ARROW_UP"), Action("ARROW_DOWN")))
    else if s.knobBank == 2 then
      Step(true, s, m, [ForwardCC(chan, cc - KNOB_FIRST + 24, val)])
    else
      Step(false, s, m, [])
  }

  function ControlStep(s: MiniState, m: MixerState, chains: map<int, Chain>, active: Option<Processor>,
                       hasOutput: bool, chan: int, cc: int, val: int, now: int): (r: Step)
    requires 0 <= chan < 16 && 0 <= cc < 128 && 0 <= val < 128
    ensures !r.consumed ==> r.state == s && r.mixer == m && r.out == []
    ensures r.state.shift != s.shift ==> cc == SHIFT
    ensures r.mixer != m ==> s.knobBank == 0 && KNOB_FIRST <= cc <= KNOB_LAST
  {
    if cc == BANK_DOWN && val > 0 then
      if s.shift then Step(true, s, m, [Action("ARROW_UP")])
      else
        var s' := s.(knobBank := PrevBank(s.knobBank));
        Step(true, s', m, IfOutput(hasOutput, ButtonLeds(s'.knobBank)))
    else if cc == BANK_UP && val > 0 then
      if s.shift then Step(true, s, m, [Action("ARROW_DOWN")])
      else
        var s' := s.(knobBank := NextBank(s.knobBank));
        Step(true, s', m, IfOutput(hasOutput, ButtonLeds(s'.knobBank)))
    else if cc == SHIFT then
      Step(true, s.(shift := val != 0), m, [])
    else if cc == SWITCH3 then
      var h := HoldStep(s.pressTimes, cc, val, 3, now);
      Step(true, s.(pressTimes := h.pressTimes), m, (if val > 0 then [DevCC(0, cc, LED_ON)] else []) + h.out)
    else if KNOB_FIRST <= cc <= KNOB_LAST then
      KnobStep(s, m, chains, active, chan, cc, val, now)
    else if cc in SWITCH_INDEX then
      if s.shift && cc == METRONOME then
        Step(true, s, m, if val > 0 then [Action("TEMPO")] else [])
      else
        var h := HoldStep(s.pressTimes, cc, val, SWITCH_INDEX[cc], now);
        Step(true, s.(pressTimes := h.pressTimes), m, h.out)
    else if cc == PLAY && val > 0 then
      Step(true, s, m, [Action(if s.shift then "TOGGLE_MIDI_PLAY" else "TOGGLE_PLAY")])
    else if cc == RECORD && val > 0 then
      Step(true, s, m, [Action(if s.shift then "TOGGLE_MIDI_RECORD" else "TOGGLE_RECORD")])
    else if cc in BUTTON_COMMANDS && val > 0 then
      Step(true, s, m, [DevCC(0, cc, LED_ON), Action(BUTTON_COMMANDS[cc])])
    else
      Step(cc == 0 || val == 0, s, m, [])
  }

  /** One incoming event, decoded from its status byte. */
  function MidiStep(s: MiniState, m: MixerState, chains: map<int, Chain>, active: Option<Processor>,
                    hasOutput: bool, ev: seq<int>, now: int): (r: Step)
    requires Readable(ev)
    ensures !r.consumed ==> r.state == s && r.mixer == m && r.out == []
    ensures Kind(ev[0]) != CONTROL_CHANGE ==> r.state == s
    ensures Kind(ev[0]) != CONTROL_CHANGE && Kind(ev[0]) != NOTE_ON ==> r.mixer == m
  {
    var kind, chan := Kind(ev[0]), Channel(ev[0]);
    if kind == NOTE_ON || kind == NOTE_OFF then
      var r := NoteStep(MINI_PALETTE, hasOutput, chains, m, ev);
      Step(true, s, r.mixer, r.out)
    else if kind == CONTROL_CHANGE then
      ControlStep(s, m, chains, active, hasOutput, chan, Data7(ev[1]), Data7(ev[2]), now)
    else if kind == PROGRAM_CHANGE then
      Step(true, s, m, [SelectBank(Data7(ev[1]) + 1)])
    else
      Step(false, s, m, [])
  }

  // ---------------------------------------------------------------------------
  // Properties of one event and of event pairs

  /** The control numbers this driver maps. */
  predicate Mapped(cc: int)
  {
    || cc == BANK_DOWN || cc == BANK_UP || cc == SHIFT || cc == SWITCH3
    || cc == PLAY || cc == RECORD
    || cc in SWITCH_INDEX || cc in BUTTON_COMMANDS
    || KNOB_FIRST <= cc <= KNOB_LAST
  }

  /** With the bank in the ring, a control change is consumed exactly when
      its number is mapped, or its number or value is zero. */
  lemma ControlConsumed(s: MiniState, m: MixerState, chains: map<int, Chain>, active: Option<Processor>,
                        hasOutput: bool, ev: seq<int>, now: int)
    requires Readable(ev) && Kind(ev[0]) == CONTROL_CHANGE && 0 <= s.knobBank < BANKS
    ensures var cc, val := Data7(ev[1]), Data7(ev[2]);
            MidiStep(s, m, chains, active, hasOutput, ev, now).consumed <==> Mapped(cc) || cc == 0 || val == 0
  {
  }

  /** An unmapped control change with non-zero number and value passes
      through untouched. */
  lemma UnmappedPassesThrough(s: MiniState, m: MixerState, chains: map<int, Chain>, active: Option<Processor>,
                              hasOutput: bool, ev: seq<int>, now: int)
    requires Readable(ev) && Kind(ev[0]) == CONTROL_CHANGE
    requires !Mapped(Data7(ev[1])) && Data7(ev[1]) != 0 && Data7(ev[2]) != 0
    ensures MidiStep(s, m, chains, active, hasOutput, ev, now) == Step(false, s, m, [])
  {
  }

  /** Notes are always consumed; keyboard notes go on to the host unchanged. */
  lemma NoteEvents(s: MiniState, m: MixerState, chains: map<int, Chain>, active: Option<Processor>,
                   hasOutput: bool, ev: seq<int>, now: int)
    requires Readable(ev) && (Kind(ev[0]) == NOTE_ON || Kind(ev[0]) == NOTE_OFF)
    ensures var e := MidiStep(s, m, chains, active, hasOutput, ev, now);
            && e.consumed && e.state == s
            && (!(SOLO_BASE <= Data7(ev[1]) <= 119) ==> e.mixer == m && e.out == [Forward(ev)])
  {
  }

  /** Program change p selects sequencer bank p + 1; kinds the driver does
      not decode pass through. */
  lemma OtherKinds(s: MiniState, m: MixerState, chains: map<int, Chain>, active: Option<Processor>,
                   hasOutput: bool, ev: seq<int>, now: int)
    requires Readable(ev)
    requires Kind(ev[0]) != NOTE_ON && Kind(ev[0]) != NOTE_OFF && Kind(ev[0]) != CONTROL_CHANGE
    ensures Kind(ev[0]) == PROGRAM_CHANGE ==>
              MidiStep(s, m, chains, active, hasOutput, ev, now) == Step(true, s, m, [SelectBank(Data7(ev[1]) + 1)])
    ensures Kind(ev[0]) != PROGRAM_CHANGE ==>
              MidiStep(s, m, chains, active, hasOutput, ev, now) == Step(false, s, m, [])
  {
  }

  /** Buttons 51 and 52: without shift they step the bank ring and relight the
      bank indicators; with shift they leave the bank and send an arrow. */
  lemma BankButtons(s: MiniState, m: MixerState, chains: map<int, Chain>, active: Option<Processor>,
                    hasOutput: bool, ev: seq<int>, now: int)
    requires Readable(ev) && Kind(ev[0]) == CONTROL_CHANGE && Data7(ev[2]) > 0
    requires Data7(ev[1]) == BANK_DOWN || Data7(ev[1]) == BANK_UP
    ensures var e, down := MidiStep(s, m, chains, active, hasOutput, ev, now), Data7(ev[1]) == BANK_DOWN;
            && e.consumed && e.mixer == m
            && (!s.shift ==>
                  && e.state == s.(knobBank := if down then PrevBank(s.knobBank) else NextBank(s.knobBank))
                  && e.out == IfOutput(hasOutput, ButtonLeds(e.state.knobBank)))
            && (s.shift ==> e.state == s && e.out == [Action(if down then "ARROW_UP" else "ARROW_DOWN")])
  {
  }

  /** Every event keeps the bank in {0, 1, 2}, and only an unshifted press of
      51 or 52 changes it. */
  lemma BankStaysInRing(s: MiniState, m: MixerState, chains: map<int, Chain>, active: Option<Processor>,
                        hasOutput: bool, ev: seq<int>, now: int)
    requires Readable(ev) && 0 <= s.knobBank < BANKS
    ensures 0 <= MidiStep(s, m, chains, active, hasOutput, ev, now).state.knobBank < BANKS
    ensures MidiStep(s, m, chains, active, hasOutput, ev, now).state.knobBank != s.knobBank ==>
              && Kind(ev[0]) == CONTROL_CHANGE && !s.shift && Data7(ev[2]) > 0
              && (Data7(ev[1]) == BANK_DOWN || Data7(ev[1]) == BANK_UP)
  {
  }

  /** The switch a held button stands for: 104 is switch 3, 74..77 map through SWITCH_INDEX. */
  predicate HeldButton(s: MiniState, cc: int)
  {
    cc == SWITCH3 || (cc in SWITCH_INDEX && !(s.shift && cc == METRONOME))
  }

  function SwitchOf(cc: int): int
    requires cc == SWITCH3 || cc in SWITCH_INDEX
  {
    if cc == SWITCH3 then 3 else SWITCH_INDEX[cc]
  }

  /** Held buttons: a press records the time, a release with a recorded press
      emits one classified ZYNSWITCH and forgets the press, a release without
      one changes nothing; nothing but the registry changes. */
  lemma HeldSwitch(s: MiniState, m: MixerState, chains: map<int, Chain>, active: Option<Processor>,
                   hasOutput: bool, ev: seq<int>, now: int)
    requires Readable(ev) && Kind(ev[0]) == CONTROL_CHANGE && HeldButton(s, Data7(ev[1]))
    ensures var cc, val, e := Data7(ev[1]), Data7(ev[2]), MidiStep(s, m, chains, active, hasOutput, ev, now);
            && e.consumed && e.mixer == m && e.state == s.(pressTimes := e.state.pressTimes)
            && (val > 0 ==>
                  e.state.pressTimes == s.pressTimes[cc := now]
                  && e.out == if cc == SWITCH3 then [DevCC(0, cc, LED_ON)] else [])
            && (val == 0 && cc in s.pressTimes ==>
                  e.state.pressTimes == s.pressTimes - {cc}
                  && e.out == [ZynSwitch(SwitchOf(cc), Classify(now - s.pressTimes[cc]))])
            && (val == 0 && cc !in s.pressTimes ==> e.state == s && e.out == [])
  {
  }

  /** A press at t1 and its release at t2 send exactly one ZYNSWITCH,
      classified by t2 - t1, and leave the registry without that button. */
  lemma PressThenReleaseEvents(s: MiniState, m: MixerState, chains: map<int, Chain>, active: Option<Processor>,
                               hasOutput: bool, press: seq<int>, release: seq<int>, t1: int, t2: int)
    requires Readable(press) && Kind(press[0]) == CONTROL_CHANGE && Data7(press[2]) > 0
    requires Readable(release) && Kind(release[0]) == CONTROL_CHANGE && Data7(release[2]) == 0
    requires Data7(press[1]) == Data7(release[1]) && HeldButton(s, Data7(press[1]))
    ensures var cc := Data7(press[1]);
            var e1 := MidiStep(s, m, chains, active, hasOutput, press, t1);
            var e2 := MidiStep(e1.state, e1.mixer, chains, active, hasOutput, release, t2);
            && e2.state == s.(pressTimes := s.pressTimes - {cc}) && e2.mixer == m
            && e2.out == [ZynSwitch(SwitchOf(cc), Classify(t2 - t1))]
  {
    var cc := Data7(press[1]);
    HeldSwitch(s, m, chains, active, hasOutput, press, t1);
    var e1 := MidiStep(s, m, chains, active, hasOutput, press, t1);
    assert HeldButton(e1.state, cc);
    HeldSwitch(e1.state, e1.mixer, chains, active, hasOutput, release, t2);
  }

  /** Shift with the metronome button: TEMPO on press, nothing on release,
      the press registry untouched. */
  lemma ShiftMetronome(s: MiniState, m: MixerState, chains: map<int, Chain>, active: Option<Processor>,
                       hasOutput: bool, ev: seq<int>, now: int)
    requires Readable(ev) && Kind(ev[0]) == CONTROL_CHANGE && Data7(ev[1]) == METRONOME && s.shift
    ensures MidiStep(s, m, chains, active, hasOutput, ev, now)
            == Step(true, s, m, if Data7(ev[2]) > 0 then [Action("TEMPO")] else [])
  {
  }

  /** The shift key: shift is held exactly while its last value was non-zero. */
  lemma ShiftKey(s: MiniState, m: MixerState, chains: map<int, Chain>, active: Option<Processor>,
                 hasOutput: bool, ev: seq<int>, now: int)
    requires Readable(ev) && Kind(ev[0]) == CONTROL_CHANGE && Data7(ev[1]) == SHIFT
    ensures MidiStep(s, m, chains, active, hasOutput, ev, now) == Step(true, s.(shift := Data7(ev[2]) != 0), m, [])
  {
  }

  /** PLAY and RECORD toggle the audio transport, or the MIDI one while shift
      is held, on a press; their release is consumed with no effect. */
  lemma TransportButtons(s: MiniState, m: MixerState, chains: map<int, Chain>, active: Option<Processor>,
                         hasOutput: bool, ev: seq<int>, now: int)
    requires Readable(ev) && Kind(ev[0]) == CONTROL_CHANGE && (Data7(ev[1]) == PLAY || Data7(ev[1]) == RECORD)
    ensures var cc, e := Data7(ev[1]), MidiStep(s, m, chains, active, hasOutput, ev, now);
            && (Data7(ev[2]) > 0 && cc == PLAY ==>
                  e == Step(true, s, m, [Action(if s.shift then "TOGGLE_MIDI_PLAY" else "TOGGLE_PLAY")]))
            && (Data7(ev[2]) > 0 && cc == RECORD ==>
                  e == Step(true, s, m, [Action(if s.shift then "TOGGLE_MIDI_RECORD" else "TOGGLE_RECORD")]))
            && (Data7(ev[2]) == 0 ==> e == Step(true, s, m, []))
  {
  }

  /** A command button lights its LED and then sends its action on a press;
      its release is consumed with no effect. */
  lemma CommandButtons(s: MiniState, m: MixerState, chains: map<int, Chain>, active: Option<Processor>,
                       hasOutput: bool, ev: seq<int>, now: int)
    requires Readable(ev) && Kind(ev[0]) == CONTROL_CHANGE && Data7(ev[1]) in BUTTON_COMMANDS
    ensures var cc, e := Data7(ev[1]), MidiStep(s, m, chains, active, hasOutput, ev, now);
            && (Data7(ev[2]) > 0 ==> e == Step(true, s, m, [DevCC(0, cc, LED_ON), Action(BUTTON_COMMANDS[cc])]))
            && (Data7(ev[2]) == 0 ==> e == Step(true, s, m, []))
  {
  }
  /** A control change with number or value 0 that no earlier branch takes
      (a release of 51/52, PLAY, RECORD or a command button, CC 0, or an
      unmapped number at value 0) is consumed and does nothing else. */
  lemma ZeroSwallowed(s: MiniState, m: MixerState, chains: map<int, Chain>, active: Option<Processor>,
                      hasOutput: bool, ev: seq<int>, now: int)
    requires Readable(ev) && Kind(ev[0]) == CONTROL_CHANGE && (Data7(ev[1]) == 0 || Data7(ev[2]) == 0)
    requires Data7(ev[1]) != SHIFT && Data7(ev[1]) != SWITCH3 && Data7(ev[1]) !in SWITCH_INDEX
    requires !(KNOB_FIRST <= Data7(ev[1]) <= KNOB_LAST)
    ensures MidiStep(s, m, chains, active, hasOutput, ev, now) == Step(true, s, m, [])
  {
  }


  /** Shift pressed (or released) and then PLAY pressed: the MIDI transport is
      toggled exactly when the shift event held shift down. */
  lemma ShiftThenPlay(s: MiniState, m: MixerState, chains: map<int, Chain>, active: Option<Processor>,
                      hasOutput: bool, shiftEv: seq<int>, play: seq<int>, t1: int, t2: int)
    requires Readable(shiftEv) && Kind(shiftEv[0]) == CONTROL_CHANGE && Data7(shiftEv[1]) == SHIFT
    requires Readable(play) && Kind(play[0]) == CONTROL_CHANGE && Data7(play[1]) == PLAY && Data7(play[2]) > 0
    ensures var e1 := MidiStep(s, m, chains, active, hasOutput, shiftEv, t1);
            var e2 := MidiStep(e1.state, e1.mixer, chains, active, hasOutput, play, t2);
            && e2.state == s.(shift := Data7(shiftEv[2]) != 0) && e2.mixer == m
            && e2.out == [Action(if Data7(shiftEv[2]) != 0 then "TOGGLE_MIDI_PLAY" else "TOGGLE_PLAY")]
  {
    ShiftKey(s, m, chains, active, hasOutput, shiftEv, t1);
    var e1 := MidiStep(s, m, chains, active, hasOutput, shiftEv, t1);
    TransportButtons(e1.state, e1.mixer, chains, active, hasOutput, play, t2);
  }

  /** Bank-0 knobs nudge the level of their position's mixer channel, only
      for a non-zero delta on a valid chain, and always consume the event. */
  lemma BankZeroNudge(s: MiniState, m: MixerState, chains: map<int, Chain>, active: Option<Processor>,
                      hasOutput: bool, ev: seq<int>, now: int)
    requires Readable(ev) && Kind(ev[0]) == CONTROL_CHANGE
    requires s.knobBank == 0 && KNOB_FIRST <= Data7(ev[1]) <= KNOB_LAST
    ensures var cc, val, e := Data7(ev[1]), Data7(ev[2]), MidiStep(s, m, chains, active, hasOutput, ev, now);
            var target := MixerChanAt(chains, cc - KNOB_FIRST);
            && e.consumed && e.state == s && e.out == []
            && (TransportDelta(val) != 0 && target.Some? ==>
                  && e.mixer == m.(level := m.level[target.value := Nudge(LevelOf(m, target.value), TransportDelta(val))])
                  && 0.0 <= LevelOf(e.mixer, target.value) <= 1.0)
            && (TransportDelta(val) == 0 || target.None? ==> e.mixer == m)
  {
  }

  /** Bank-1 knobs 1..4 send their delta to host encoders 0..3; knobs 7 and 8
      send one arrow per turn. */
  lemma BankOneKnobs(s: MiniState, m: MixerState, chains: map<int, Chain>, active: Option<Processor>,
                     hasOutput: bool, ev: seq<int>, now: int)
    requires Readable(ev) && Kind(ev[0]) == CONTROL_CHANGE && s.knobBank == 1
    ensures var cc, val, e := Data7(ev[1]), Data7(ev[2]), MidiStep(s, m, chains, active, hasOutput, ev, now);
            && (KNOB_FIRST <= cc < 89 ==>
                  e == Step(true, s, m, if val == 64 then [] else [Cuia("ZYNPOT", [Num(cc - KNOB_FIRST), Num(TransportDelta(val))])]))
            && (cc == 91 ==>
                  e == Step(true, s, m, if val < 64 then [Action("ARROW_LEFT")] else if val > 64 then [Action("ARROW_RIGHT")] else []))
            && (cc == 92 ==>
                  e == Step(true, s, m, if val < 64 then [Action("ARROW_UP")] else if val > 64 then [Action("ARROW_DOWN")] else []))
  {
  }

  /** Knob 5 of bank 1 steps the active processor's preset index by one in
      the knob's direction, wrapping at both ends, then refreshes two screens. */
  lemma PresetBrowsing(s: MiniState, m: MixerState, chains: map<int, Chain>, active: Option<Processor>,
                       hasOutput: bool, ev: seq<int>, now: int)
    requires Readable(ev) && Kind(ev[0]) == CONTROL_CHANGE && s.knobBank == 1 && Data7(ev[1]) == 89
    ensures var e := MidiStep(s, m, chains, active, hasOutput, ev, now);
            && e.consumed && e.state == s && e.mixer == m
            && (e.out != [] <==> Data7(ev[2]) != 64 && active.Some? && active.value.presetCount > 0)
            && (e.out != [] ==>
                  var current := if active.value.presetIndex.Some? then active.value.presetIndex.value else 0;
                  && e.out == [ SetPreset(PresetWrap(current, Direction(Data7(ev[2])), active.value.presetCount)),
                                Cuia("refresh_screen", [Text("control")]),
                                Cuia("refresh_screen", [Text("audio_mixer")]) ]
                  && 0 <= e.out[0].index < active.value.presetCount
                  && (current == 0 && Data7(ev[2]) < 64 ==> e.out[0].index == active.value.presetCount - 1)
                  && (current == active.value.presetCount - 1 && Data7(ev[2]) > 64 ==> e.out[0].index == 0))
  {
  }

  /** Knob 6 of bank 1: inside 600 ms of the last accepted turn it is
      swallowed and the clock kept; otherwise the clock moves to now and a
      turn down sends BACK, a turn up a short ZYNSWITCH 3. */
  lemma SelectBackDebounce(s: MiniState, m: MixerState, chains: map<int, Chain>, active: Option<Processor>,
                           hasOutput: bool, ev: seq<int>, now: int)
    requires Readable(ev) && Kind(ev[0]) == CONTROL_CHANGE && s.knobBank == 1 && Data7(ev[1]) == 90
    ensures var val, e := Data7(ev[2]), MidiStep(s, m, chains, active, hasOutput, ev, now);
            && e.consumed && e.mixer == m
            && (now - s.lastSelectBackTime < DEBOUNCE ==> e.state == s && e.out == [])
            && (now - s.lastSelectBackTime >= DEBOUNCE ==>
                  && e.state == s.(lastSelectBackTime := now)
                  && e.out == if val < 64 then [Action("BACK")] else if val > 64 then [ZynSwitch(3, Short)] else [])
  {
  }

  /** Two turns of knob 6, the first accepted: the second acts exactly when
      it comes at least 600 ms after the first. */
  lemma DebouncePair(s: MiniState, m: MixerState, chains: map<int, Chain>, active: Option<Processor>,
                     hasOutput: bool, ev1: seq<int>, ev2: seq<int>, t: int, gap: int)
    requires Readable(ev1) && Kind(ev1[0]) == CONTROL_CHANGE && Data7(ev1[1]) == 90 && Data7(ev1[2]) != 64
    requires Readable(ev2) && Kind(ev2[0]) == CONTROL_CHANGE && Data7(ev2[1]) == 90 && Data7(ev2[2]) != 64
    requires s.knobBank == 1 && t - s.lastSelectBackTime >= DEBOUNCE
    ensures var e1 := MidiStep(s, m, chains, active, hasOutput, ev1, t);
            var e2 := MidiStep(e1.state, e1.mixer, chains, active, hasOutput, ev2, t + gap);
            && |e1.out| == 1
            && (|e2.out| == 1 <==> gap >= DEBOUNCE)
            && (gap < DEBOUNCE ==> e2.out == [] && e2.state == e1.state)
  {
    SelectBackDebounce(s, m, chains, active, hasOutput, ev1, t);
    var e1 := MidiStep(s, m, chains, active, hasOutput, ev1, t);
    SelectBackDebounce(e1.state, e1.mixer, chains, active, hasOutput, ev2, t + gap);
  }

  /** Bank-2 knobs forward CC 85..92 as CC 24..31 on the same channel with
      the same value. */
  lemma BankTwoRemap(s: MiniState, m: MixerState, chains: map<int, Chain>, active: Option<Processor>,
                     hasOutput: bool, ev: seq<int>, now: int)
    requires Readable(ev) && Kind(ev[0]) == CONTROL_CHANGE
    requires s.knobBank == 2 && KNOB_FIRST <= Data7(ev[1]) <= KNOB_LAST
    ensures var cc := Data7(ev[1]);
            && 24 <= cc - 61 <= 31
            && MidiStep(s, m, chains, active, hasOutput, ev, now)
               == Step(true, s, m, [Forward([0xB0 + Channel(ev[0]), cc - 61, Data7(ev[2])])])
  {
  }

  /** This driver's pad colours: solo pads 14 soloed, 118 not, mute pads 5
      muted, 64 not, and 0 for a position without a valid mixer channel. */
  lemma MiniPadColours(chains: map<int, Chain>, m: MixerState, i: int)
    requires 0 <= i < PADS
    ensures var w, ch := PadLeds(MINI_PALETTE, chains, m), MixerChanAt(chains, i);
            && |w| == 2 * PADS
            && w[i].note == 96 + i && w[PADS + i].note == 112 + i
            && (w[i].vel == 0 <==> ch.None?)
            && (w[i].vel == 14 <==> ch.Some? && IsSoloed(m, ch.value))
            && (w[i].vel == 118 <==> ch.Some? && !IsSoloed(m, ch.value))
            && (w[PADS + i].vel == 0 <==> ch.None?)
            && (w[PADS + i].vel == 5 <==> ch.Some? && IsMuted(m, ch.value))
            && (w[PADS + i].vel == 64 <==> ch.Some? && !IsMuted(m, ch.value))
  {
    PadLedAt(MINI_PALETTE, chains, m, i);
  }

  // ---------------------------------------------------------------------------
  // The driver object

  class MiniDriver {
    /** False when the device has no output port (idev_out is None). */
    const hasOutput: bool
    const zynmixer: Mixer
    var shift: bool
    var knobBank: int
    var pressTimes: map<int, int>
    var lastSelectBackTime: int
    /** Everything sent to the device and the host, in order. */
    var log: seq<Output>

    ghost predicate Valid()
      reads this
    {
      0 <= knobBank < BANKS
    }

    function State(): MiniState
      reads this
    {
      MiniState(shift, knobBank, pressTimes, lastSelectBackTime)
    }

    constructor (mixer: Mixer, hasOutput: bool)
      ensures Valid() && State() == MINI_INIT && log == []
      ensures zynmixer == mixer && this.hasOutput == hasOutput
    {
      this.hasOutput := hasOutput;
      zynmixer := mixer;
      shift := false;
      pressTimes := map[];
      knobBank := 1;
      lastSelectBackTime := 0;
      log := [];
    }

    method UpdateButtonLeds()
      modifies this`log
      ensures log == old(log) + IfOutput(hasOutput, ButtonLeds(knobBank))
    {
      if !hasOutput {
        return;
      }
      var w := ButtonLedWrites(knobBank);
      log := log + w;
    }

    method UpdatePadLeds(chains: map<int, Chain>)
      modifies this`log
      ensures log == old(log) + IfOutput(hasOutput, PadLeds(MINI_PALETTE, chains, zynmixer.Snapshot()))
    {
      if !hasOutput {
        return;
      }
      var w := PadLedWrites(MINI_PALETTE, chains, zynmixer.Snapshot());
      log := log + w;
    }

    /** Called when the screen changes or chains are modified. */
    method Refresh(chains: map<int, Chain>)
      modifies this`log
      ensures log == old(log) + IfOutput(hasOutput, PadLeds(MINI_PALETTE, chains, zynmixer.Snapshot()))
    {
      UpdatePadLeds(chains);
    }

    method MidiEvent(ev: seq<int>, now: int, chains: map<int, Chain>, active: Option<Processor>)
      returns (consumed: bool)
      requires Valid() && Readable(ev)
      modifies this, zynmixer
      ensures Valid()
      ensures var e := MidiStep(old(State()), old(zynmixer.Snapshot()), chains, active, hasOutput, ev, now);
              consumed == e.consumed && State() == e.state && zynmixer.Snapshot() == e.mixer
              && log == old(log) + e.out
    {
      var evtype, evChan := Kind(ev[0]), Channel(ev[0]);
      if evtype == NOTE_ON || evtype == NOTE_OFF {
        var out := HandleNote(zynmixer, MINI_PALETTE, hasOutput, chains, ev);
        log := log + out;
        return true;
      } else if evtype == CONTROL_CHANGE {
        consumed := ControlChange(evChan, Data7(ev[1]), Data7(ev[2]), now, chains, active);
        return;
      } else if evtype == PROGRAM_CHANGE {
        log := log + [SelectBank(Data7(ev[1]) + 1)];
        return true;
      }
      return false;
    }

    method ControlChange(chan: int, cc: int, val: int, now: int, chains: map<int, Chain>, active: Option<Processor>)
      returns (consumed: bool)
      requires Valid() && 0 <= chan < 16 && 0 <= cc < 128 && 0 <= val < 128
      modifies this, zynmixer
      ensures Valid()
      ensures var e := ControlStep(old(State()), old(zynmixer.Snapshot()), chains, active, hasOutput, chan, cc, val, now);
              consumed == e.consumed && State() == e.state && zynmixer.Snapshot() == e.mixer
              && log == old(log) + e.out
    {
      if cc == BANK_DOWN && val > 0 {
        if shift {
          log := log + [Action("ARROW_UP")];
        } else {
          knobBank := (knobBank - 1) % BANKS;
          UpdateButtonLeds();
        }
        return true;
      } else if cc == BANK_UP && val > 0 {
        if shift {
          log := log + [Action("ARROW_DOWN")];
        } else {
          knobBank := (knobBank + 1) % BANKS;
          UpdateButtonLeds();
        }
        return true;
      } else if cc == SHIFT {
        shift := val != 0;
        return true;
      } else if cc == SWITCH3 {
        Hold(cc, val, 3, now);
        return true;
      } else if KNOB_FIRST <= cc <= KNOB_LAST {
        consumed := Knob(chan, cc, val, now, chains, active);
        return;
      } else if cc in SWITCH_INDEX {
        if shift && cc == METRONOME {
          if val > 0 {
            log := log + [Action("TEMPO")];
          }
          return true;
        }
        Hold(cc, val, SWITCH_INDEX[cc], now);
        return true;
      } else if cc == PLAY && val > 0 {
        log := log + [Action(if shift then "TOGGLE_MIDI_PLAY" else "TOGGLE_PLAY")];
        return true;
      } else if cc == RECORD && val > 0 {
        log := log + [Action(if shift then "TOGGLE_MIDI_RECORD" else "TOGGLE_RECORD")];
        return true;
      } else if cc in BUTTON_COMMANDS && val > 0 {
        log := log + [DevCC(0, cc, LED_ON), Action(BUTTON_COMMANDS[cc])];
        return true;
      } else if cc == 0 || val == 0 {
        return true;
      }
      return false;
    }

    /** Press/release of a held switch; the switch-3 button also lights on press. */
    method Hold(cc: int, val: int, index: int, now: int)
      modifies this`pressTimes, this`log
      ensures var h := HoldStep(old(pressTimes), cc, val, index, now);
              pressTimes == h.pressTimes
              && log == old(log) + (if cc == SWITCH3 && val > 0 then [DevCC(0, cc, LED_ON)] else []) + h.out
    {
      if val > 0 {
        pressTimes := pressTimes[cc := now];
        if cc == SWITCH3 {
          log := log + [DevCC(0, cc, LED_ON)];
        }
      } else if cc in pressTimes {
        var duration := now - pressTimes[cc];
        var h := if duration < SHORT_LIMIT then Short else if duration < BOLD_LIMIT then Bold else Long;
        log := log + [ZynSwitch(index, h)];
        pressTimes := pressTimes - {cc};
      }
    }

    method Knob(chan: int, cc: int, val: int, now: int, chains: map<int, Chain>, active: Option<Processor>)
      returns (consumed: bool)
      requires Valid() && 0 <= chan < 16 && KNOB_FIRST <= cc <= KNOB_LAST && 0 <= val < 128
      modifies this, zynmixer
      ensures Valid()
      ensures var e := KnobStep(old(State()), old(zynmixer.Snapshot()), chains, active, chan, cc, val, now);
              consumed == e.consumed && State() == e.state && zynmixer.Snapshot() == e.mixer
              && log == old(log) + e.out
    {
      if knobBank == 0 {
        var mixerChan := MixerChanAt(chains, cc - KNOB_FIRST);
        if mixerChan.Some? {
          var delta := TransportDelta(val);
          if delta != 0 {
            var current := LevelOf(zynmixer.Snapshot(), mixerChan.value);
            zynmixer.SetLevel(mixerChan.value, Nudge(current, delta));
          }
        }
        return true;
      } else if knobBank == 1 {
        if cc < 89 {
          var delta := TransportDelta(val);
          if delta != 0 {
            log := log + [Cuia("ZYNPOT", [Num(cc - KNOB_FIRST), Num(delta)])];
          }
          return true;
        } else if cc == 89 {
          log := log + BrowsePreset(active, Direction(val));
          return true;
        } else if cc == 90 {
          if now - lastSelectBackTime < DEBOUNCE {
            return true;
          }
          lastSelectBackTime := now;
          log := log + Turn(val, Action("BACK"), ZynSwitch(3, Short));
          return true;
        } else if cc == 91 {
          log := log + Turn(val, Action("ARROW_LEFT"), Action("ARROW_RIGHT"));
          return true;
        } else {
          log := log + Turn(val, Action("ARROW_UP"), Action("ARROW_DOWN"));
          return true;
        }
      } else {
        log := log + [ForwardCC(chan, cc - KNOB_FIRST + 24, val)];
        return true;
      }
    }
  }
}
