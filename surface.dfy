/** Values and helpers shared by the two Launchkey MK4 37 drivers: decoding of
    the MIDI status byte, the host's chains and audio mixer as the drivers see
    them, the log of everything a driver sends out, the hold classifier, the
    three-bank ring and the LED velocity tables. */
module Surface {

  datatype Option<T> = None | Some(value: T)

  // ---------------------------------------------------------------------------
  // MIDI 1.0 channel voice messages

  const NOTE_OFF := 0x8
  const NOTE_ON := 0x9
  const CONTROL_CHANGE := 0xB
  const PROGRAM_CHANGE := 0xC

  /** The event kind, `(status >> 4) & 0x0F`. Python's shift floors and its
      mask keeps the low four bits of the two's complement, which is what
      Euclidean `/` and `%` by a positive constant give for every integer. */
  function Kind(status: int): (k: int)
    ensures 0 <= k < 16
    ensures 0 <= status < 256 ==> k == status / 16
  {
    (status / 16) % 16
  }

  /** The channel, `status & 0x0F`. */
  function Channel(status: int): (c: int)
    ensures 0 <= c < 16
    ensures 0 <= status < 256 ==> status == 16 * Kind(status) + c
  {
    status % 16
  }

  /** A data byte masked to seven bits, `b & 0x7F`. */
  function Data7(b: int): (d: int)
    ensures 0 <= d < 128
    ensures 0 <= b < 128 ==> d == b
  {
    b % 128
  }

  /** The status byte of kind `kind` on channel `chan`: `kind << 4 | chan`. */
  function Status(kind: int, chan: int): int
  {
    16 * kind + chan
  }

  lemma StatusRoundTrip(kind: int, chan: int)
    requires 0 <= kind < 16 && 0 <= chan < 16
    ensures Kind(Status(kind, chan)) == kind && Channel(Status(kind, chan)) == chan
  {
    var s := Status(kind, chan);
    assert s / 16 == kind;
  }

  /** The bytes the drivers read exist: notes and control changes read two
      data bytes, a program change reads one, any other kind reads none. */
  predicate Readable(ev: seq<int>)
  {
    && |ev| >= 1
    && (Kind(ev[0]) == NOTE_OFF || Kind(ev[0]) == NOTE_ON || Kind(ev[0]) == CONTROL_CHANGE ==> |ev| >= 3)
    && (Kind(ev[0]) == PROGRAM_CHANGE ==> |ev| >= 2)
  }

  // ---------------------------------------------------------------------------
  // What a driver sends out

  /** An argument of a host action: the source passes ints and one-letter strings. */
  datatype Arg = Num(n: int) | Text(s: string)

  datatype Output =
    | Cuia(name: string, args: seq<Arg>)            // state_manager.send_cuia
    | Forward(bytes: seq<int>)                      // lib_zyncore.write_zynmidi
    | DevNoteOn(chan: int, note: int, vel: int)     // note-on to the device (pad LED)
    | DevCC(chan: int, cc: int, val: int)           // control change to the device (button LED)
    | SelectBank(bank: int)                         // zynseq.select_bank
    | SetPreset(index: int)                         // processor.set_preset

  /** A host action without arguments. */
  function Action(name: string): Output
  {
    Cuia(name, [])
  }

  /** The control change `[0xB0 | chan, cc, val]` passed into the host's MIDI routing. */
  function ForwardCC(chan: int, cc: int, val: int): (o: Output)
    requires 0 <= chan < 16
    ensures o.Forward? && |o.bytes| == 3
    ensures o.bytes[0] == 0xB0 + chan
    ensures Kind(o.bytes[0]) == CONTROL_CHANGE && Channel(o.bytes[0]) == chan
    ensures o.bytes[1..] == [cc, val]
  {
    StatusRoundTrip(CONTROL_CHANGE, chan);
    Forward([Status(CONTROL_CHANGE, chan), cc, val])
  }

  /** Writes that reach the device only when it has an output port. */
  function IfOutput(hasOutput: bool, w: seq<Output>): seq<Output>
  {
    if hasOutput then w else []
  }

  // ---------------------------------------------------------------------------
  // The host: chains by position and the audio mixer

  /** A chain as the drivers use it: its mixer channel, which may be unset. */
  datatype Chain = Chain(mixerChan: Option<int>)

  /** Mixer channels at or above this are not strips the pads control. */
  const MAX_MIXER_CHAN := 17

  /** The mixer channel of the chain at a position, when that chain exists,
      has a mixer channel and that channel is below 17; None otherwise. */
  function MixerChanAt(chains: map<int, Chain>, pos: int): (r: Option<int>)
    ensures r.Some? <==>
      pos in chains && chains[pos].mixerChan.Some? && chains[pos].mixerChan.value < MAX_MIXER_CHAN
    ensures r.Some? ==> r.value == chains[pos].mixerChan.value
  {
    if pos in chains && chains[pos].mixerChan.Some? && chains[pos].mixerChan.value < MAX_MIXER_CHAN
    then chains[pos].mixerChan
    else None
  }

  datatype MixerState = MixerState(level: map<int, real>, mute: map<int, bool>, solo: map<int, bool>)

  /** A channel the mixer holds no value for reads as level 0, unmuted, not soloed. */
  function LevelOf(m: MixerState, ch: int): real
  {
    if ch in m.level then m.level[ch] else 0.0
  }

  predicate IsMuted(m: MixerState, ch: int)
  {
    ch in m.mute && m.mute[ch]
  }

  predicate IsSoloed(m: MixerState, ch: int)
  {
    ch in m.solo && m.solo[ch]
  }

  /** The host's audio mixer, which the drivers change in place. */
  class Mixer {
    var level: map<int, real>
    var mute: map<int, bool>
    var solo: map<int, bool>

    function Snapshot(): MixerState
      reads this
    {
      MixerState(level, mute, solo)
    }

    constructor (m: MixerState)
      ensures Snapshot() == m
    {
      level, mute, solo := m.level, m.mute, m.solo;
    }

    method SetLevel(ch: int, v: real)
      modifies this
      ensures Snapshot() == old(Snapshot()).(level := old(level)[ch := v])
    {
      level := level[ch := v];
    }

    method SetMute(ch: int, b: bool)
      modifies this
      ensures Snapshot() == old(Snapshot()).(mute := old(mute)[ch := b])
    {
      mute := mute[ch := b];
    }

    method SetSolo(ch: int, b: bool)
      modifies this
      ensures Snapshot() == old(Snapshot()).(solo := old(solo)[ch := b])
    {
      solo := solo[ch := b];
    }
  }

  // ---------------------------------------------------------------------------
  // Hold classifier

  datatype Hold = Short | Bold | Long

  /** Press durations, in milliseconds, that end the short and bold buckets. */
  const SHORT_LIMIT := 500
  const BOLD_LIMIT := 1500

  function Classify(duration: int): (h: Hold)
    ensures h == Short <==> duration < SHORT_LIMIT
    ensures h == Bold <==> SHORT_LIMIT <= duration < BOLD_LIMIT
    ensures h == Long <==> BOLD_LIMIT <= duration
  {
    if duration < SHORT_LIMIT then Short
    else if duration < BOLD_LIMIT then Bold
    else Long
  }

  function Rank(h: Hold): nat
  {
    match h
    case Short => 0
    case Bold => 1
    case Long => 2
  }

  /** Holding a button longer never gives a shorter class. */
  lemma ClassifyMonotone(d1: int, d2: int)
    requires d1 <= d2
    ensures Rank(Classify(d1)) <= Rank(Classify(d2))
  {
  }

  function Letter(h: Hold): string
  {
    match h
    case Short => "S"
    case Bold => "B"
    case Long => "L"
  }

  /** The host action `ZYNSWITCH [index, 'S'|'B'|'L']`. */
  function ZynSwitch(index: int, h: Hold): Output
  {
    Cuia("ZYNSWITCH", [Num(index), Text(Letter(h))])
  }

  datatype HoldResult = HoldResult(pressTimes: map<int, int>, out: seq<Output>)

  /** One press (`val > 0`) or release (`val == 0`) of a held switch: a press
      records the time; a release with a recorded press emits the classified
      switch action and forgets the press; any other release does nothing. */
  function HoldStep(press: map<int, int>, cc: int, val: int, index: int, now: int): (r: HoldResult)
    ensures val > 0 ==> r.out == [] && r.pressTimes == press[cc := now]
    ensures val <= 0 ==> r.pressTimes.Keys == press.Keys - {cc} && |r.out| == if cc in press then 1 else 0
    ensures val <= 0 && cc in press ==> r.out == [ZynSwitch(index, Classify(now - press[cc]))]
    ensures forall k :: k in press && k != cc ==> k in r.pressTimes && r.pressTimes[k] == press[k]
  {
    if val > 0 then
      HoldResult(press[cc := now], [])
    else if cc in press then
      HoldResult(press - {cc}, [ZynSwitch(index, Classify(now - press[cc]))])
    else
      HoldResult(press, [])
  }

  /** A press at t1 and the release at t2 emit exactly one switch action,
      classified by t2 - t1, and leave the registry without that switch. */
  lemma PressThenRelease(press: map<int, int>, cc: int, val: int, index: int, t1: int, t2: int)
    requires val > 0
    ensures var p := HoldStep(press, cc, val, index, t1);
            var r := HoldStep(p.pressTimes, cc, 0, index, t2);
            p.out + r.out == [ZynSwitch(index, Classify(t2 - t1))] && r.pressTimes == press - {cc}
  {
  }

  /** A release with no recorded press leaves everything as it was. */
  lemma SpuriousRelease(press: map<int, int>, cc: int, index: int, now: int)
    requires cc !in press
    ensures HoldStep(press, cc, 0, index, now) == HoldResult(press, [])
  {
  }

  // ---------------------------------------------------------------------------
  // The ring of three knob banks

  const BANKS := 3

  /** Button 51 without shift: `(bank - 1) % 3` (Python's % of a positive
      divisor is never negative, as Dafny's). */
  function PrevBank(bank: int): (r: int)
    ensures 0 <= r < BANKS
    ensures (r + 1) % BANKS == bank % BANKS
  {
    (bank - 1) % BANKS
  }

  /** Button 52 without shift: `(bank + 1) % 3`. */
  function NextBank(bank: int): (r: int)
    ensures 0 <= r < BANKS
    ensures (r + BANKS - 1) % BANKS == bank % BANKS
  {
    (bank + 1) % BANKS
  }

  lemma PrevNextInverse(bank: int)
    requires 0 <= bank < BANKS
    ensures PrevBank(NextBank(bank)) == bank && NextBank(PrevBank(bank)) == bank
  {
  }

  /** Three steps in the same direction come back to the same bank. */
  lemma {:induction false} RingPeriod(bank: int)
    requires 0 <= bank < BANKS
    ensures NextBank(NextBank(NextBank(bank))) == bank
    ensures PrevBank(PrevBank(PrevBank(bank))) == bank
  {
    if bank == 0 {
      assert NextBank(0) == 1 && NextBank(1) == 2 && NextBank(2) == 0;
      assert PrevBank(0) == 2 && PrevBank(2) == 1 && PrevBank(1) == 0;
    } else if bank == 1 {
      assert NextBank(1) == 2 && NextBank(2) == 0 && NextBank(0) == 1;
      assert PrevBank(1) == 0 && PrevBank(0) == 2 && PrevBank(2) == 1;
    } else {
      assert NextBank(2) == 0 && NextBank(0) == 1 && NextBank(1) == 2;
      assert PrevBank(2) == 1 && PrevBank(1) == 0 && PrevBank(0) == 2;
    }
  }

  // ---------------------------------------------------------------------------
  // Button LEDs

  /** The navigation buttons lit at full brightness: 104, 105, 0x66, 0x67, 106, 107. */
  const NAV_BUTTONS: seq<int> := [104, 105, 0x66, 0x67, 106, 107]
  const BANK_DOWN := 51
  const BANK_UP := 52
  const LED_ON := 127

  /** The writes of update_button_leds: every navigation button lit, then
      button 51 lit only in bank 0 and button 52 only in bank 1. */
  function ButtonLeds(bank: int): (w: seq<Output>)
    ensures |w| == |NAV_BUTTONS| + 2
    ensures forall i :: 0 <= i < |w| ==> w[i].DevCC? && w[i].chan == 0
    ensures w[|NAV_BUTTONS|].cc == BANK_DOWN && w[|NAV_BUTTONS| + 1].cc == BANK_UP
  {
    seq(|NAV_BUTTONS|, i requires 0 <= i < |NAV_BUTTONS| => DevCC(0, NAV_BUTTONS[i], LED_ON))
    + [ DevCC(0, BANK_DOWN, if bank == 0 then LED_ON else 0),
        DevCC(0, BANK_UP, if bank == 1 then LED_ON else 0) ]
  }

  /** The two bank indicators: lit only for their own bank, both dark in bank 2. */
  lemma BankIndicators(bank: int)
    requires 0 <= bank < BANKS
    ensures |ButtonLeds(bank)| == 8
    ensures ButtonLeds(bank)[6] == DevCC(0, BANK_DOWN, if bank == 0 then LED_ON else 0)
    ensures ButtonLeds(bank)[7] == DevCC(0, BANK_UP, if bank == 1 then LED_ON else 0)
    ensures ButtonLeds(bank)[6].val == LED_ON <==> bank == 0
    ensures ButtonLeds(bank)[7].val == LED_ON <==> bank == 1
    ensures bank == 2 ==> ButtonLeds(bank)[6].val == 0 && ButtonLeds(bank)[7].val == 0
    ensures forall i :: 0 <= i < 6 ==> ButtonLeds(bank)[i] == DevCC(0, NAV_BUTTONS[i], LED_ON)
  {
  }

  /** update_button_leds's loop over the navigation buttons, then the two bank indicators. */
  method ButtonLedWrites(bank: int) returns (w: seq<Output>)
    ensures w == ButtonLeds(bank)
  {
    w := [];
    for i := 0 to |NAV_BUTTONS|
      invariant |w| == i
      invariant forall j :: 0 <= j < i ==> w[j] == DevCC(0, NAV_BUTTONS[j], LED_ON)
    {
      w := w + [DevCC(0, NAV_BUTTONS[i], LED_ON)];
    }
    w := w + [DevCC(0, BANK_DOWN, if bank == 0 then LED_ON else 0)];
    w := w + [DevCC(0, BANK_UP, if bank == 1 then LED_ON else 0)];
  }

  // ---------------------------------------------------------------------------
  // Pad LEDs

  /** The first note of the solo row (pads 96..103) and of the mute row (112..119). */
  const SOLO_BASE := 96
  const MUTE_BASE := 112
  const PADS := 8

  /** A driver's velocity codes: soloed / not soloed, muted / not muted. */
  datatype Palette = Palette(soloOn: int, soloOff: int, muteOn: int, muteOff: int)

  function SoloLed(p: Palette, chains: map<int, Chain>, m: MixerState, pos: int): int
  {
    match MixerChanAt(chains, pos)
    case None => 0
    case Some(ch) => if IsSoloed(m, ch) then p.soloOn else p.soloOff
  }

  function MuteLed(p: Palette, chains: map<int, Chain>, m: MixerState, pos: int): int
  {
    match MixerChanAt(chains, pos)
    case None => 0
    case Some(ch) => if IsMuted(m, ch) then p.muteOn else p.muteOff
  }

  /** The writes of update_pad_leds: the eight solo pads, then the eight mute pads. */
  function PadLeds(p: Palette, chains: map<int, Chain>, m: MixerState): (w: seq<Output>)
    ensures |w| == 2 * PADS
    ensures forall i :: 0 <= i < |w| ==> w[i].DevNoteOn? && w[i].chan == 0
    ensures forall i :: 0 <= i < PADS ==> w[i].note == SOLO_BASE + i
    ensures forall i :: PADS <= i < 2 * PADS ==> w[i].note == MUTE_BASE + (i - PADS)
  {
    seq(PADS, i => DevNoteOn(0, SOLO_BASE + i, SoloLed(p, chains, m, i)))
    + seq(PADS, i => DevNoteOn(0, MUTE_BASE + i, MuteLed(p, chains, m, i)))
  }

  /** update_pad_leds's two loops over the eight positions. */
  method PadLedWrites(p: Palette, chains: map<int, Chain>, m: MixerState) returns (w: seq<Output>)
    ensures w == PadLeds(p, chains, m)
  {
    w := [];
    for i := 0 to PADS
      invariant |w| == i
      invariant forall j :: 0 <= j < i ==> w[j] == DevNoteOn(0, SOLO_BASE + j, SoloLed(p, chains, m, j))
    {
      var vel := 0;
      match MixerChanAt(chains, i) {
        case Some(ch) => vel := if IsSoloed(m, ch) then p.soloOn else p.soloOff;
        case None =>
      }
      w := w + [DevNoteOn(0, SOLO_BASE + i, vel)];
    }
    for i := 0 to PADS
      invariant |w| == PADS + i
      invariant forall j :: 0 <= j < PADS ==> w[j] == DevNoteOn(0, SOLO_BASE + j, SoloLed(p, chains, m, j))
      invariant forall j :: 0 <= j < i ==> w[PADS + j] == DevNoteOn(0, MUTE_BASE + j, MuteLed(p, chains, m, j))
    {
      var vel := 0;
      match MixerChanAt(chains, i) {
        case Some(ch) => vel := if IsMuted(m, ch) then p.muteOn else p.muteOff;
        case None =>
      }
      w := w + [DevNoteOn(0, MUTE_BASE + i, vel)];
    }
  }

  /** Pad position i's two writes, read back from the whole refresh. */
  lemma PadLedAt(p: Palette, chains: map<int, Chain>, m: MixerState, i: int)
    requires 0 <= i < PADS
    ensures |PadLeds(p, chains, m)| == 2 * PADS
    ensures PadLeds(p, chains, m)[i] == DevNoteOn(0, SOLO_BASE + i, SoloLed(p, chains, m, i))
    ensures PadLeds(p, chains, m)[PADS + i] == DevNoteOn(0, MUTE_BASE + i, MuteLed(p, chains, m, i))
  {
  }

  // ---------------------------------------------------------------------------
  // Note events, handled alike by both drivers

  datatype NoteResult = NoteResult(mixer: MixerState, out: seq<Output>)

  /** A note-on or note-off: a pad note (96..119) is always consumed; a
      note-on with velocity > 0 on 96..103 toggles that position's solo and
      on 112..119 its mute, refreshing the pad LEDs, when the position has a
      valid mixer channel. Any other note goes on to the host unchanged. */
  function NoteStep(p: Palette, hasOutput: bool, chains: map<int, Chain>, m: MixerState, ev: seq<int>): (r: NoteResult)
    requires |ev| >= 3
    ensures r.mixer.level == m.level
    ensures r.mixer != m ==> Kind(ev[0]) == NOTE_ON && Data7(ev[2]) > 0 && SOLO_BASE <= Data7(ev[1]) <= 119
    ensures Forward(ev) in r.out <==> !(SOLO_BASE <= Data7(ev[1]) <= 119)
  {
    var kind, note, vel := Kind(ev[0]), Data7(ev[1]), Data7(ev[2]);
    if SOLO_BASE <= note <= 119 then
      if SOLO_BASE <= note <= 103 && kind == NOTE_ON && vel > 0 then
        match MixerChanAt(chains, note - SOLO_BASE)
        case Some(ch) =>
          var m' := m.(solo := m.solo[ch := !IsSoloed(m, ch)]);
          NoteResult(m', IfOutput(hasOutput, PadLeds(p, chains, m')))
        case None => NoteResult(m, [])
      else if MUTE_BASE <= note <= 119 && kind == NOTE_ON && vel > 0 then
        match MixerChanAt(chains, note - MUTE_BASE)
        case Some(ch) =>
          var m' := m.(mute := m.mute[ch := !IsMuted(m, ch)]);
          NoteResult(m', IfOutput(hasOutput, PadLeds(p, chains, m')))
        case None => NoteResult(m, [])
      else
        NoteResult(m, [])
    else
      NoteResult(m, [Forward(ev)])
  }

  /** Pad notes never reach the host; keyboard notes reach it unchanged. */
  lemma NoteRouting(p: Palette, hasOutput: bool, chains: map<int, Chain>, m: MixerState, ev: seq<int>)
    requires |ev| >= 3
    ensures var r := NoteStep(p, hasOutput, chains, m, ev);
            && (SOLO_BASE <= Data7(ev[1]) <= 119 ==> Forward(ev) !in r.out && r.mixer.level == m.level)
            && (!(SOLO_BASE <= Data7(ev[1]) <= 119) ==> r == NoteResult(m, [Forward(ev)]))
  {
  }

  /** A solo pad pressed on a valid position flips that channel's solo and
      nothing else in the mixer; a mute pad does the same for mute. */
  lemma PadToggle(p: Palette, hasOutput: bool, chains: map<int, Chain>, m: MixerState, ev: seq<int>)
    requires |ev| >= 3 && Kind(ev[0]) == NOTE_ON && Data7(ev[2]) > 0
    ensures var note, r := Data7(ev[1]), NoteStep(p, hasOutput, chains, m, ev);
            && (SOLO_BASE <= note < SOLO_BASE + PADS && MixerChanAt(chains, note - SOLO_BASE).Some? ==>
                  var ch := MixerChanAt(chains, note - SOLO_BASE).value;
                  r.mixer == m.(solo := m.solo[ch := !IsSoloed(m, ch)]) && IsSoloed(r.mixer, ch) == !IsSoloed(m, ch)
                  && r.out == IfOutput(hasOutput, PadLeds(p, chains, r.mixer)))
            && (MUTE_BASE <= note < MUTE_BASE + PADS && MixerChanAt(chains, note - MUTE_BASE).Some? ==>
                  var ch := MixerChanAt(chains, note - MUTE_BASE).value;
                  r.mixer == m.(mute := m.mute[ch := !IsMuted(m, ch)]) && IsMuted(r.mixer, ch) == !IsMuted(m, ch)
                  && r.out == IfOutput(hasOutput, PadLeds(p, chains, r.mixer)))
  {
  }

  /** Pad note-offs, zero-velocity note-ons, pads 104..111 and pads whose
      position has no valid mixer channel change nothing and send nothing. */
  lemma PadInert(p: Palette, hasOutput: bool, chains: map<int, Chain>, m: MixerState, ev: seq<int>)
    requires |ev| >= 3 && SOLO_BASE <= Data7(ev[1]) <= 119
    requires || Kind(ev[0]) != NOTE_ON || Data7(ev[2]) == 0 || 104 <= Data7(ev[1]) < MUTE_BASE
             || (Data7(ev[1]) < SOLO_BASE + PADS && MixerChanAt(chains, Data7(ev[1]) - SOLO_BASE).None?)
             || (MUTE_BASE <= Data7(ev[1]) && MixerChanAt(chains, Data7(ev[1]) - MUTE_BASE).None?)
    ensures NoteStep(p, hasOutput, chains, m, ev) == NoteResult(m, [])
  {
  }

  /** The imperative counterpart of NoteStep: changes the mixer in place and
      returns the writes to log. */
  method HandleNote(mixer: Mixer, p: Palette, hasOutput: bool, chains: map<int, Chain>, ev: seq<int>)
    returns (out: seq<Output>)
    requires |ev| >= 3
    modifies mixer
    ensures NoteResult(mixer.Snapshot(), out) == NoteStep(p, hasOutput, chains, old(mixer.Snapshot()), ev)
  {
    var kind, note, vel := Kind(ev[0]), Data7(ev[1]), Data7(ev[2]);
    out := [];
    if SOLO_BASE <= note <= 119 {
      if SOLO_BASE <= note <= 103 && kind == NOTE_ON && vel > 0 {
        var chan := MixerChanAt(chains, note - SOLO_BASE);
        if chan.Some? {
          var current := IsSoloed(mixer.Snapshot(), chan.value);
          mixer.SetSolo(chan.value, !current);
          if hasOutput {
            out := PadLedWrites(p, chains, mixer.Snapshot());
          }
        }
      } else if MUTE_BASE <= note <= 119 && kind == NOTE_ON && vel > 0 {
        var chan := MixerChanAt(chains, note - MUTE_BASE);
        if chan.Some? {
          var current := IsMuted(mixer.Snapshot(), chan.value);
          mixer.SetMute(chan.value, !current);
          if hasOutput {
            out := PadLedWrites(p, chains, mixer.Snapshot());
          }
        }
      }
    } else {
      out := [Forward(ev)];
    }
  }
}
