/** The falling-edge handler of the three buttons (HandleInterruption in
    Irrigacao.c): a debounce gate per button, each guarding one control flag. */
module Buttons {
  import opened General

  /** Quiet interval, in microseconds, that must pass between accepted edges. */
  const DebounceWindow: int := 250000

  /** What one button owns: the 32-bit microsecond time of its last accepted
      edge and the control flag it toggles. */
  datatype Line = Line(lastTime: u32, control: bool)

  /** The handler's state: button A drives temperature, button B humidity and
      the joystick button brightness. */
  datatype Controls = Controls(a: Line, b: Line, joystick: Line)
  {
    function LineOf(ch: Channel): Line
    {
      match ch
      case Temperature => a
      case Humidity => b
      case Brightness => joystick
    }

    /** Whether the channel currently follows the joystick. */
    predicate Selected(ch: Channel)
    {
      LineOf(ch).control
    }
  }

  /** State at boot: all timestamps 0, all flags off. */
  const Boot := Controls(Line(0, false), Line(0, false), Line(0, false))

  /** Microseconds from `last` to `now` on a 32-bit clock that wraps around:
      the plain difference, or the difference plus 2^32 once the clock has
      wrapped past `last`. */
  function Elapsed(last: u32, now: u32): nat
  {
    if last <= now then now - last else now + 0x1_0000_0000 - last
  }

  /** One edge on one button, with the handler's unsigned 32-bit test
      `now - last > 250000`: accepted iff more than the debounce window has
      passed since the last accepted edge; an accepted edge records `now` and
      flips the flag, a rejected one changes nothing. */
  function Press(l: Line, now: u32): (r: Line)
    ensures Elapsed(l.lastTime, now) > 250000 ==> r == Line(now, !l.control)
    ensures Elapsed(l.lastTime, now) <= 250000 ==> r == l
  {
    if ToU32(now - l.lastTime) > DebounceWindow then Line(now, !l.control) else l
  }

  /** The handler: dispatches on the gpio number and presses only that
      button's line; any other gpio leaves the state unchanged. */
  function HandleInterruption(s: Controls, gpio: nat, now: u32): (r: Controls)
    ensures forall ch: Channel :: r.LineOf(ch) ==
              if gpio == ButtonPin(ch) then Press(s.LineOf(ch), now) else s.LineOf(ch)
    ensures gpio !in {ButtonA, ButtonB, JoystickButton} ==> r == s
  {
    if gpio == 5 then s.(a := Press(s.a, now))
    else if gpio == 6 then s.(b := Press(s.b, now))
    else if gpio == 22 then s.(joystick := Press(s.joystick, now))
    else s
  }

  /** Two accepted presses of the same button give the flag back its value. */
  lemma ToggleInvolution(s: Controls, ch: Channel, t1: u32, t2: u32)
    requires Elapsed(s.LineOf(ch).lastTime, t1) > 250000
    requires Elapsed(t1, t2) > 250000
    ensures HandleInterruption(HandleInterruption(s, ButtonPin(ch), t1), ButtonPin(ch), t2).Selected(ch)
            == s.Selected(ch)
    ensures HandleInterruption(HandleInterruption(s, ButtonPin(ch), t1), ButtonPin(ch), t2).LineOf(ch).lastTime
            == t2
  {
  }

  /** An edge that follows an accepted edge on the same button within the
      window is rejected; one that follows it after more than the window is
      accepted. */
  lemma DebounceAfterAccept(s: Controls, ch: Channel, t1: u32, t2: u32)
    requires Elapsed(s.LineOf(ch).lastTime, t1) > 250000
    ensures var s1 := HandleInterruption(s, ButtonPin(ch), t1);
            var s2 := HandleInterruption(s1, ButtonPin(ch), t2);
            (Elapsed(t1, t2) <= 250000 <==> s2 == s1)
  {
  }

  /** Since every timestamp starts at 0, no edge in the first 250 ms after
      boot is accepted. */
  lemma EarlyEdgesRejected(gpio: nat, now: u32)
    requires now <= 250000
    ensures HandleInterruption(Boot, gpio, now) == Boot
  {
  }

  /** The flags are independent: pressing button A and then button B leaves
      both temperature and humidity selected. */
  lemma FlagsNotExclusive()
    ensures var s := HandleInterruption(HandleInterruption(Boot, ButtonA, 300000), ButtonB, 300000);
            s.Selected(Temperature) && s.Selected(Humidity) && !s.Selected(Brightness)
  {
  }

  /** Edges at 0, 100000 and 260001 microseconds on button A: the first two
      fall inside the window opened by the boot timestamp and are rejected,
      the third is accepted. */
  lemma EdgeTrace()
    ensures HandleInterruption(Boot, ButtonA, 0) == Boot
    ensures HandleInterruption(Boot, ButtonA, 100000) == Boot
    ensures HandleInterruption(Boot, ButtonA, 260001).a == Line(260001, true)
  {
  }
}
