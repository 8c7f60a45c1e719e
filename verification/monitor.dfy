/** The main loop of Irrigacao.c: each tick overwrites the selected channels
    from the joystick sample and classifies the three readings into an alert
    band that drives the status LEDs (UpdateIndicators). */
module Monitor {
  import opened General
  import opened Buttons

  /** The three simulated readings, each an unsigned byte. */
  datatype Readings = Readings(temperature: u8, humidity: u8, brightness: u8)
  {
    function Value(ch: Channel): u8
    {
      match ch
      case Temperature => temperature
      case Humidity => humidity
      case Brightness => brightness
    }

    /** The same readings with one channel replaced. */
    function With(ch: Channel, v: u8): (r: Readings)
      ensures r.Value(ch) == v
      ensures forall other: Channel :: other != ch ==> r.Value(other) == Value(other)
    {
      match ch
      case Temperature => this.(temperature := v)
      case Humidity => this.(humidity := v)
      case Brightness => this.(brightness := v)
    }
  }

  /** Readings at boot. */
  const Startup := Readings(25, 60, 50)

  /** The loop's `range`, computed into a 16-bit unsigned variable. */
  const AxisRange: u16 := ToU16(HighestAxisValue - LowestAxisValue)

  /** The loop's mapping `0 + (sample - LOWEST) * (fullScale / range)` stored
      into a byte: the sample is promoted to int, the scale factor is a C
      integer division, and the byte keeps the product modulo 256. */
  function Scale(sample: u16, fullScale: int): u8
  {
    ToU8(0 + (sample - LowestAxisValue) * CDiv(fullScale, AxisRange))
  }

  /** Every scale factor the loop uses (50 and 100) is smaller than the range,
      so the division truncates to 0 and the mapping yields 0 for every
      sample, in or out of the nominal axis range. */
  lemma ScaleCollapses(sample: u16, fullScale: int)
    requires 0 <= fullScale < AxisRange
    ensures Scale(sample, fullScale) == 0
  {
    AxisSpanExceedsScales();
  }

  /** One loop tick: each channel whose flag is set is overwritten from the
      sample, which (the scale factors truncating to 0) leaves it at 0; every
      other channel keeps its previous value. Several channels may update in
      one tick. */
  function Tick(r: Readings, c: Controls, sample: u16): (r': Readings)
    ensures forall ch: Channel :: r'.Value(ch) == if c.Selected(ch) then 0 else r.Value(ch)
  {
    ScaleCollapses(sample, 50);
    ScaleCollapses(sample, 100);
    var temperature := if c.a.control then Scale(sample, 50) else r.temperature;
    var humidity := if c.b.control then Scale(sample, 100) else r.humidity;
    var brightness := if c.joystick.control then Scale(sample, 100) else r.brightness;
    Readings(temperature, humidity, brightness)
  }

  /** The ordered alert bands. */
  datatype Band = Normal | Warning | Critical
  {
    function Rank(): nat
    {
      match this
      case Normal => 0
      case Warning => 1
      case Critical => 2
    }
  }

  /** The more severe of two bands. */
  function Worse(x: Band, y: Band): (w: Band)
    ensures w.Rank() >= x.Rank() && w.Rank() >= y.Rank()
    ensures w == x || w == y
  {
    if x.Rank() >= y.Rank() then x else y
  }

  /** The band a single reading falls into against its own thresholds; a
      value equal to a bound belongs to the less severe band. */
  function ChannelBand(ch: Channel, v: int): Band
  {
    if v > MediumMax(ch) then Critical
    else if v > NormalMax(ch) then Warning
    else Normal
  }

  /** UpdateIndicators' cascade: critical if any reading exceeds its medium
      maximum, else warning if any exceeds its normal maximum, else normal.
      The result is the worst of the three per-channel bands. */
  function Classify(r: Readings): (band: Band)
    ensures band == Worse(Worse(ChannelBand(Temperature, r.temperature),
                                ChannelBand(Humidity, r.humidity)),
                          ChannelBand(Brightness, r.brightness))
  {
    if r.temperature > TempMediumMax || r.humidity > HumidityMediumMax
       || r.brightness > BrightnessMediumMax then
      Critical
    else if r.temperature > TempNormalMax || r.humidity > HumidityNormalMax
            || r.brightness > BrightnessNormalMax then
      Warning
    else
      Normal
  }

  /** The three bands, stated over the channels: critical iff some reading
      exceeds its medium maximum; warning iff none does but some exceeds its
      normal maximum; normal iff every reading is within its normal maximum. */
  lemma BandCharacterisation(r: Readings)
    ensures Classify(r) == Critical <==> exists ch: Channel :: r.Value(ch) > MediumMax(ch)
    ensures Classify(r) == Warning <==>
              (forall ch: Channel :: r.Value(ch) <= MediumMax(ch))
              && (exists ch: Channel :: r.Value(ch) > NormalMax(ch))
    ensures Classify(r) == Normal <==> forall ch: Channel :: r.Value(ch) <= NormalMax(ch)
  {
  }

  /** Raising one reading while the others stay fixed never lowers the band. */
  lemma ClassifyMonotone(r: Readings, ch: Channel, v: u8)
    requires r.Value(ch) <= v
    ensures Classify(r).Rank() <= Classify(r.With(ch, v)).Rank()
  {
  }

  /** Levels the classifier writes to the red, green and blue LED pins. */
  datatype StatusLeds = StatusLeds(red: bool, green: bool, blue: bool)

  /** The pin levels of each band: critical drives the red pin alone high,
      warning the green and blue pins, normal the green pin alone. */
  function Indicators(band: Band): (leds: StatusLeds)
    ensures leds.red <==> band == Critical
    ensures leds.green <==> !leds.red
    ensures leds.blue <==> band == Warning
  {
    match band
    case Critical => StatusLeds(true, false, false)
    case Warning => StatusLeds(false, true, true)
    case Normal => StatusLeds(false, true, false)
  }

  /** UpdateIndicators: the pin levels follow from the readings alone. The
      red pin is driven high iff some reading exceeds its medium maximum, the
      green pin iff none does, and the blue pin iff none does while some
      exceeds its normal maximum. */
  function UpdateIndicators(r: Readings): (leds: StatusLeds)
    ensures leds.red <==> exists ch: Channel :: r.Value(ch) > MediumMax(ch)
    ensures leds.green <==> forall ch: Channel :: r.Value(ch) <= MediumMax(ch)
    ensures leds.blue <==> (forall ch: Channel :: r.Value(ch) <= MediumMax(ch))
                           && (exists ch: Channel :: r.Value(ch) > NormalMax(ch))
  {
    BandCharacterisation(r);
    Indicators(Classify(r))
  }

  /** What reaches the core: a falling edge on a gpio at a clock reading, or
      one pass of the main loop with whatever the joystick variable holds (it
      is never written, so any 16-bit value). */
  datatype Event = Edge(gpio: nat, now: u32) | LoopTick(sample: u16)

  /** The whole mutable state of the program. */
  datatype Station = Station(controls: Controls, readings: Readings)

  const PowerOn := Station(Boot, Startup)

  /** The effect of one event: an edge runs the handler, a tick runs the
      mapping. The handler runs as one indivisible step. */
  function Step(s: Station, e: Event): Station
  {
    match e
    case Edge(gpio, now) => s.(controls := HandleInterruption(s.controls, gpio, now))
    case LoopTick(sample) => s.(readings := Tick(s.readings, s.controls, sample))
  }

  /** The state after a sequence of events, oldest first. */
  function Run(s: Station, es: seq<Event>): Station
    decreases |es|
  {
    if |es| == 0 then s else Run(Step(s, es[0]), es[1..])
  }

  /** A deselected channel stays deselected while its button sees no edge:
      ticks and edges on the other buttons never touch its flag. */
  lemma {:induction false} DeselectedWhileUntouched(s: Station, es: seq<Event>, ch: Channel)
    requires !s.controls.Selected(ch)
    requires forall i :: 0 <= i < |es| && es[i].Edge? ==> es[i].gpio != ButtonPin(ch)
    ensures forall j :: 0 <= j <= |es| ==> !Run(s, es[..j]).controls.Selected(ch)
    decreases |es|
  {
    if |es| > 0 {
      var s1 := Step(s, es[0]);
      assert !s1.controls.Selected(ch);
      forall i | 0 <= i < |es[1..]| && es[1..][i].Edge?
        ensures es[1..][i].gpio != ButtonPin(ch)
      {
        assert es[1..][i] == es[i + 1];
      }
      DeselectedWhileUntouched(s1, es[1..], ch);
      forall j | 0 <= j <= |es|
        ensures !Run(s, es[..j]).controls.Selected(ch)
      {
        if j > 0 {
          assert es[..j][0] == es[0] && es[..j][1..] == es[1..][..j - 1];
        }
      }
    } else {
      assert es[..0] == es;
    }
  }

  /** Sticky hold: a reading keeps its value across any run during which its
      channel is never selected, whatever edges (rejected ones on its own
      button included) and ticks the run holds. */
  lemma {:induction false} StickyHold(s: Station, es: seq<Event>, ch: Channel)
    requires forall j :: 0 <= j <= |es| ==> !Run(s, es[..j]).controls.Selected(ch)
    ensures Run(s, es).readings.Value(ch) == s.readings.Value(ch)
    decreases |es|
  {
    if |es| > 0 {
      assert es[..0] == [] && es[..1] == [es[0]] && es[..|es|] == es;
      var s1 := Step(s, es[0]);
      assert Run(s, es[..1]) == s1;
      assert !s.controls.Selected(ch) by {
        assert Run(s, es[..0]) == s;
      }
      assert s1.readings.Value(ch) == s.readings.Value(ch);
      forall j | 0 <= j <= |es[1..]|
        ensures !Run(s1, es[1..][..j]).controls.Selected(ch)
      {
        assert es[..j + 1][0] == es[0] && es[..j + 1][1..] == es[1..][..j];
        assert Run(s, es[..j + 1]) == Run(s1, es[1..][..j]);
      }
      StickyHold(s1, es[1..], ch);
    }
  }

  /** Every reading holds either its value at boot or 0, because the mapping
      can only ever write 0. */
  ghost predicate ReachableReadings(r: Readings)
  {
    forall ch: Channel :: r.Value(ch) == Startup.Value(ch) || r.Value(ch) == 0
  }

  /** Once every reading holds its boot value or 0 (as at power-on), every
      run of edges and ticks keeps it so. */
  lemma {:induction false} ReadingsStayReachable(s: Station, es: seq<Event>)
    requires ReachableReadings(s.readings)
    ensures ReachableReadings(Run(s, es).readings)
    decreases |es|
  {
    if |es| > 0 {
      var s1 := Step(s, es[0]);
      assert ReachableReadings(s1.readings);
      ReadingsStayReachable(s1, es[1..]);
    }
  }

  /** Consequently the program as written never leaves the normal band:
      only the green pin is driven high after every run from power-on. */
  lemma AlwaysNormal(es: seq<Event>)
    ensures Classify(Run(PowerOn, es).readings) == Normal
    ensures UpdateIndicators(Run(PowerOn, es).readings) == StatusLeds(false, true, false)
  {
    ReadingsStayReachable(PowerOn, es);
    var r := Run(PowerOn, es).readings;
    assert r.Value(Temperature) == 25 || r.Value(Temperature) == 0;
    assert r.Value(Humidity) == 60 || r.Value(Humidity) == 0;
    assert r.Value(Brightness) == 50 || r.Value(Brightness) == 0;
  }
}
