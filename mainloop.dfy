/** The dashboard loop of main.py: each pass reads the BME280 sensor, pumps the GPS
    driver, runs the once-per-second fix gate and writes the labels by the hold-or-fallback
    policy.

    The drivers, the clock and the memory query are not modelled; what they hand the loop
    on one pass is a `TickInput`.  The per-tick policy is specified declaratively by
    `RenderFrame` (which labels a pass writes, and with what) and `Outcome` (how the pass ends);
    `Dashboard.Tick` performs the setter calls in the order main.py makes them and is
    proved to realise `Step`. */
module MainLoop {
  import opened Wrappers
  import opened Format
  import opened Screen

  /** `gps.timestamp_utc.tm_hour` and `.tm_min`. */
  datatype UtcTime = UtcTime(hour: int, minute: int)

  /** The GPS driver's last parsed state, as main.py reads it.  `latitude` and `longitude`
      are their `.6f` renderings, `speedKmh` is `round(speed_knots * 1.852)`. */
  datatype Fix = Fix(
    hasFix: bool,
    latitude: Option<string>,
    longitude: Option<string>,
    speedKmh: Option<int>,
    satellites: Option<int>,
    fixQuality: Option<int>,
    timestampUtc: Option<UtcTime>)

  /** What the driver reports before it has parsed anything. */
  const NoFix := Fix(false, None, None, None, None, None, None)

  /** How the sensor block of one pass (main.py lines 42-46) goes.  Temperatures,
      humidities and pressures are the rounded values `set_bme_values` displays
      (`pressMmHg` is `round(press * 0.75)`); `altitude` is the `.1f` rendering. */
  datatype BmeRead =
    | ValueErrorBeforeSet
      // reading temperature, humidity or pressure raised ValueError
    | AltitudeValueError(temp: int, humi: int, pressMmHg: int)
      // the three values were shown, then reading the altitude raised ValueError
    | Read(temp: int, humi: int, pressMmHg: int, altitude: string)
    | OtherError
      // reading raised an exception other than ValueError, which nothing catches

  /** `gps.update()`: it either parses and leaves the driver in a new state, or raises. */
  datatype Pump = Parsed(fix: Fix) | PumpFailed

  /** Everything from outside that one pass sees: the sensor, the GPS pump, the value of
      `time.monotonic()` in seconds, and `mem_free()`. */
  datatype TickInput = TickInput(bme: BmeRead, pump: Pump, now: real, memFree: int)

  /** How a pass ends: at the `continue` of the fix gate, after `time.sleep(1)`, or with an
      uncaught exception that ends the program. */
  datatype TickOutcome = Skipped | Rendered | Halted

  /** The loop's state: the label texts, `last_print`, and the GPS driver's state. */
  datatype State = State(labels: Labels, lastPrint: real, gps: Fix)

  /** main.py line 74: `ui.set_counter(9856)`. */
  const CounterValue := 9856

  /** main.py line 73: the hour shown is `tm_hour + 3`. */
  const HourOffset := 3

  /** main.py line 53: the fix is checked once `last_print` is 1.0 s old. */
  const FixCheckInterval: real := 1.0

  /** The driver state after `gps.update()`: the new parse, or the old state if it raised. */
  function PumpedFix(gps: Fix, pump: Pump): Fix
  {
    match pump
    case Parsed(f) => f
    case PumpFailed => gps
  }

  predicate GateFires(lastPrint: real, now: real)
  {
    now - lastPrint >= FixCheckInterval
  }

  /** Latitude present but longitude absent: `"{0:.6f}".format(None)` raises (ValueError on
      CircuitPython, TypeError on CPython), and nothing catches it. */
  predicate CoordsRaise(f: Fix)
  {
    f.latitude.Some? && f.longitude.None?
  }

  /** The pass gets past the sensor block and the fix gate, to the GPS-derived labels. */
  predicate ReachesGps(s: State, t: TickInput)
  {
    !t.bme.OtherError? &&
    !(GateFires(s.lastPrint, t.now) && !PumpedFix(s.gps, t.pump).hasFix)
  }

  function Outcome(s: State, t: TickInput): TickOutcome
  {
    if t.bme.OtherError? then Halted
    else if !ReachesGps(s, t) then Skipped
    else if CoordsRaise(PumpedFix(s.gps, t.pump)) then Halted
    else Rendered
  }

  /** The labels the sensor block (main.py lines 42-46) writes. */
  function BmeFrame(b: BmeRead): Frame
  {
    match b
    case Read(temp, humi, press, altitude) =>
      NoWrites.(temp := Some(TempText(temp)), humi := Some(HumiText(humi)),
                press := Some(PressText(press)), alt := Some(AltText(altitude)))
    case AltitudeValueError(temp, humi, press) =>
      NoWrites.(temp := Some(TempText(temp)), humi := Some(HumiText(humi)),
                press := Some(PressText(press)))
    case ValueErrorBeforeSet => NoWrites
    case OtherError => NoWrites
  }

  /** The labels main.py lines 58-65 write from the driver state `f`: the speed if the
      driver has one, and the coordinates always, as 0, 0 when there is no latitude.  A
      latitude without a longitude stops after the latitude label. */
  function PositionFrame(f: Fix): Frame
  {
    NoWrites.(
      speed := if f.speedKmh.Some? then Some(SpeedText(f.speedKmh.value)) else None,
      lat := Some(LatText(if f.latitude.Some? then f.latitude.value else ZeroFixed6)),
      lon :=
        if CoordsRaise(f) then None
        else Some(LonText(if f.latitude.Some? then f.longitude.value else ZeroFixed6)))
  }

  /** The labels main.py lines 66-73 write: satellites, fix quality and time, each only
      when the driver has it. */
  function FixInfoFrame(f: Fix): Frame
  {
    NoWrites.(
      sat := if f.satellites.Some? then Some(SatText(f.satellites.value)) else None,
      fixQuality := if f.fixQuality.Some? then Some(FixQualityText(f.fixQuality.value)) else None,
      time :=
        if f.timestampUtc.Some?
        then Some(TimeText(f.timestampUtc.value.hour + HourOffset, f.timestampUtc.value.minute))
        else None)
  }

  /** The labels main.py lines 66-75 write: those of `FixInfoFrame`, then always the
      counter and the memory status. */
  function StatusFrame(f: Fix, memFree: int): Frame
  {
    FixInfoFrame(f).(counter := Some(CounterText(CounterValue)), sysStat := Some(RamStatus(memFree)))
  }

  /** The labels written from main.py line 59 on, once the fix gate has let the pass
      through. */
  function GpsFrame(f: Fix, memFree: int): Frame
  {
    Then(PositionFrame(f), if CoordsRaise(f) then NoWrites else StatusFrame(f, memFree))
  }

  /** The render frame of one pass: the sensor block's writes, then the GPS block's if the
      pass gets that far. */
  function RenderFrame(s: State, t: TickInput): Frame
  {
    Then(BmeFrame(t.bme),
         if ReachesGps(s, t) then GpsFrame(PumpedFix(s.gps, t.pump), t.memFree) else NoWrites)
  }

  /** The state after one pass.  A non-ValueError sensor exception leaves the loop before
      the GPS is pumped or `last_print` is looked at. */
  function Step(s: State, t: TickInput): State
  {
    if t.bme.OtherError? then s
    else State(Apply(s.labels, RenderFrame(s, t)),
               if GateFires(s.lastPrint, t.now) then t.now else s.lastPrint,
               PumpedFix(s.gps, t.pump))
  }

  // ----- The sensor block (main.py lines 42-46) -----

  /** The three BME labels are written together or not at all, the altitude label only on
      a complete read, and each holds its text when its read raised. */
  lemma BmePolicy(s: State, t: TickInput)
    ensures var l := Step(s, t).labels; var b := t.bme;
      (l.temp == if b.Read? || b.AltitudeValueError? then TempText(b.temp) else s.labels.temp) &&
      (l.humi == if b.Read? || b.AltitudeValueError? then HumiText(b.humi) else s.labels.humi) &&
      (l.press == if b.Read? || b.AltitudeValueError? then PressText(b.pressMmHg) else s.labels.press) &&
      (l.alt == if b.Read? then AltText(b.altitude) else s.labels.alt)
  {
    var g := if ReachesGps(s, t) then GpsFrame(PumpedFix(s.gps, t.pump), t.memFree) else NoWrites;
    assert g.temp.None? && g.humi.None? && g.press.None? && g.alt.None?;
  }

  /** The altitude label changes only in a pass that also wrote temperature, humidity and
      pressure. */
  lemma AltitudeOnlyWithBme(s: State, t: TickInput)
    requires Step(s, t).labels.alt != s.labels.alt
    ensures t.bme.Read?
    ensures Step(s, t).labels.temp == TempText(t.bme.temp)
    ensures Step(s, t).labels.humi == HumiText(t.bme.humi)
    ensures Step(s, t).labels.press == PressText(t.bme.pressMmHg)
  {
    BmePolicy(s, t);
  }

  // ----- The GPS pump and the fix gate (main.py lines 48-56) -----

  /** A failed `gps.update()` does not end the pass: it behaves exactly as a pump that
      re-reported the driver's previous state. */
  lemma PumpFailureIsHarmless(s: State, t: TickInput)
    ensures Step(s, t.(pump := PumpFailed)) == Step(s, t.(pump := Parsed(s.gps)))
    ensures Outcome(s, t.(pump := PumpFailed)) == Outcome(s, t.(pump := Parsed(s.gps)))
  {
    var failed, repeated := t.(pump := PumpFailed), t.(pump := Parsed(s.gps));
    assert PumpedFix(s.gps, failed.pump) == PumpedFix(s.gps, repeated.pump);
    assert ReachesGps(s, failed) == ReachesGps(s, repeated);
  }

  /** `last_print` moves only when the gate fires, then to the current time, so it never
      decreases. */
  lemma LastPrintRule(s: State, t: TickInput)
    ensures Step(s, t).lastPrint ==
      if !t.bme.OtherError? && GateFires(s.lastPrint, t.now) then t.now else s.lastPrint
    ensures Step(s, t).lastPrint >= s.lastPrint
  {
  }

  /** A pass is skipped exactly when the gate fires without a fix; a pass on which the gate
      does not fire goes on to the GPS labels whatever the fix state. */
  lemma GateRule(s: State, t: TickInput)
    ensures Outcome(s, t) == Skipped <==>
      !t.bme.OtherError? && GateFires(s.lastPrint, t.now) && !PumpedFix(s.gps, t.pump).hasFix
    ensures !t.bme.OtherError? && !GateFires(s.lastPrint, t.now) ==>
      ReachesGps(s, t) && Outcome(s, t) != Skipped
  {
  }

  /** A skipped pass writes none of the GPS, counter or status labels (and does not
      sleep): only the sensor block can have changed anything. */
  lemma SkippedPassHoldsGpsLabels(s: State, t: TickInput)
    requires Outcome(s, t) == Skipped
    ensures var l := Step(s, t).labels;
      l == s.labels.(temp := l.temp, humi := l.humi, press := l.press, alt := l.alt)
  {
  }

  // ----- The GPS-derived labels (main.py lines 58-75) -----

  /** Speed, satellites, fix quality and time hold their text when the driver has no value;
      the latitude is always rewritten, with 0 when there is no latitude, and so is the
      longitude unless it is missing beside a latitude.  That case raises after the latitude
      write: every later label keeps its text and the program ends. */
  lemma GpsHoldOrFallback(s: State, t: TickInput)
    requires ReachesGps(s, t)
    ensures var f := PumpedFix(s.gps, t.pump);
      Step(s, t).labels.speed == if f.speedKmh.Some? then SpeedText(f.speedKmh.value) else s.labels.speed
    ensures var f := PumpedFix(s.gps, t.pump);
      Step(s, t).labels.lat == LatText(if f.latitude.Some? then f.latitude.value else ZeroFixed6)
    ensures var f := PumpedFix(s.gps, t.pump); !CoordsRaise(f) ==>
      Step(s, t).labels.lon == LonText(if f.latitude.Some? then f.longitude.value else ZeroFixed6)
    ensures var f := PumpedFix(s.gps, t.pump); !CoordsRaise(f) ==>
      Step(s, t).labels.sat == if f.satellites.Some? then SatText(f.satellites.value) else s.labels.sat
    ensures var f := PumpedFix(s.gps, t.pump); !CoordsRaise(f) ==>
      Step(s, t).labels.fixQuality ==
        if f.fixQuality.Some? then FixQualityText(f.fixQuality.value) else s.labels.fixQuality
    ensures var f := PumpedFix(s.gps, t.pump); !CoordsRaise(f) ==>
      Step(s, t).labels.time ==
        if f.timestampUtc.Some?
        then TimeText(f.timestampUtc.value.hour + HourOffset, f.timestampUtc.value.minute)
        else s.labels.time
    ensures var f := PumpedFix(s.gps, t.pump); var l := Step(s, t).labels; CoordsRaise(f) ==>
      l.lon == s.labels.lon && l.sat == s.labels.sat && l.fixQuality == s.labels.fixQuality &&
      l.time == s.labels.time && l.counter == s.labels.counter && l.sysStat == s.labels.sysStat &&
      Outcome(s, t) == Halted
  {
  }

  /** With no latitude the coordinates read exactly "LAT:0.000000°" and "LON:0.000000°",
      whatever they showed before. */
  lemma CoordinateFallback(s: State, t: TickInput)
    requires ReachesGps(s, t) && PumpedFix(s.gps, t.pump).latitude.None?
    ensures Step(s, t).labels.lat == "LAT:0.000000" + [Degree]
    ensures Step(s, t).labels.lon == "LON:0.000000" + [Degree]
  {
  }

  /** The counter and status labels are written on exactly the passes that run to the
      sleep, with "009856" and "RAM:<free>B". */
  lemma StatusRule(s: State, t: TickInput)
    ensures RenderFrame(s, t).counter.Some? <==> Outcome(s, t) == Rendered
    ensures RenderFrame(s, t).sysStat.Some? <==> Outcome(s, t) == Rendered
    ensures Outcome(s, t) == Rendered ==>
      Step(s, t).labels.counter == "009856" &&
      Step(s, t).labels.sysStat == RamStatus(t.memFree)
  {
    if Outcome(s, t) == Rendered {
      CounterOfConstant();
    }
  }

  /** UTC 22:05 is displayed as "25:05": the offset does not wrap at 24. */
  lemma HourIsNotWrapped(s: State, t: TickInput)
    requires Outcome(s, t) == Rendered
    requires PumpedFix(s.gps, t.pump).timestampUtc == Some(UtcTime(22, 5))
    ensures Step(s, t).labels.time == "25:05"
  {
    GpsHoldOrFallback(s, t);
    TimeWithoutWrap();
  }

  // ----- The loop (main.py line 40) -----

  /** Where a run of passes ends: the state, the passes run, the sleeps taken, and whether
      an uncaught exception stopped the program. */
  datatype Trace = Trace(state: State, ticks: nat, sleeps: nat, halted: bool)

  /** The loop over a finite sequence of pass inputs.  `while KeyboardInterrupt:` tests a
      class object, which is always true, so only an uncaught exception ends it early. */
  function Run(s0: State, ts: seq<TickInput>): (r: Trace)
    ensures r.ticks <= |ts| && r.sleeps <= r.ticks
    ensures !r.halted ==> r.ticks == |ts|
    ensures r.state.lastPrint >= s0.lastPrint
    decreases |ts|
  {
    if ts == [] then Trace(s0, 0, 0, false)
    else
      var prev := Run(s0, ts[..|ts| - 1]);
      if prev.halted then prev
      else
        var t := ts[|ts| - 1];
        var outcome := Outcome(prev.state, t);
        LastPrintRule(prev.state, t);
        Trace(Step(prev.state, t), prev.ticks + 1,
              prev.sleeps + (if outcome == Rendered then 1 else 0), outcome == Halted)
  }

  /** Once the program has halted, later inputs change nothing. */
  lemma {:induction false} HaltIsFinal(s0: State, ts: seq<TickInput>, k: nat)
    requires k <= |ts| && Run(s0, ts[..k]).halted
    ensures Run(s0, ts) == Run(s0, ts[..k])
    decreases |ts| - k
  {
    if k < |ts| {
      var init := ts[..|ts| - 1];
      assert init[..k] == ts[..k];
      HaltIsFinal(s0, init, k);
    } else {
      assert ts[..k] == ts;
    }
  }

  /** The temperature text seen after a run of passes: that of the last pass whose sensor
      read got as far as `set_bme_values`, or `initial` if none did. */
  function LatestTemp(initial: string, ts: seq<TickInput>): string
    decreases |ts|
  {
    if ts == [] then initial
    else
      var b := ts[|ts| - 1].bme;
      if b.Read? || b.AltitudeValueError? then TempText(b.temp)
      else LatestTemp(initial, ts[..|ts| - 1])
  }

  /** Hold on failure: after any run, the temperature label shows the last successful
      reading among the passes that ran. */
  lemma {:induction false} TempHeldAcrossFailures(s0: State, ts: seq<TickInput>)
    ensures Run(s0, ts).state.labels.temp == LatestTemp(s0.labels.temp, ts[..Run(s0, ts).ticks])
    decreases |ts|
  {
    if ts != [] {
      var init := ts[..|ts| - 1];
      var prev := Run(s0, init);
      TempHeldAcrossFailures(s0, init);
      if prev.halted {
        assert ts[..prev.ticks] == init[..prev.ticks];
      } else {
        assert init[..prev.ticks] == init;
        assert ts[..|ts|] == ts;
        BmePolicy(prev.state, ts[|ts| - 1]);
      }
    }
  }

  /** A pass that nothing can disturb: the sensor read does not raise past the loop and the
      pump delivers a fix with consistent coordinates. */
  predicate Healthy(t: TickInput)
  {
    !t.bme.OtherError? && t.pump.Parsed? && t.pump.fix.hasFix && !CoordsRaise(t.pump.fix)
  }

  /** Loop cadence: when every pass is healthy, every pass runs to the sleep, so the number
      of renders equals the number of passes. */
  lemma {:induction false} HealthyRunRendersEveryPass(s0: State, ts: seq<TickInput>)
    requires forall i :: 0 <= i < |ts| ==> Healthy(ts[i])
    ensures !Run(s0, ts).halted && Run(s0, ts).ticks == |ts| && Run(s0, ts).sleeps == |ts|
    decreases |ts|
  {
    if ts != [] {
      var init := ts[..|ts| - 1];
      HealthyRunRendersEveryPass(s0, init);
      assert Healthy(ts[|ts| - 1]);
    }
  }

  /** A pass that cannot halt and cannot lose the fix: the sensor read does not raise past
      the loop, and a `gps.update()` that parses delivers a fix with consistent coordinates.
      A pump that raises keeps the driver's earlier state. */
  predicate KeepsFix(t: TickInput)
  {
    !t.bme.OtherError? && (t.pump.Parsed? ==> t.pump.fix.hasFix && !CoordsRaise(t.pump.fix))
  }

  /** Loop cadence, with failed pumps: starting from a fix with consistent coordinates, a run
      of passes that keep it renders and sleeps on every pass, and still holds such a fix. */
  lemma {:induction false} FixedRunRendersEveryPass(s0: State, ts: seq<TickInput>)
    requires s0.gps.hasFix && !CoordsRaise(s0.gps)
    requires forall i :: 0 <= i < |ts| ==> KeepsFix(ts[i])
    ensures !Run(s0, ts).halted && Run(s0, ts).ticks == |ts| && Run(s0, ts).sleeps == |ts|
    ensures Run(s0, ts).state.gps.hasFix && !CoordsRaise(Run(s0, ts).state.gps)
    decreases |ts|
  {
    if ts != [] {
      var init := ts[..|ts| - 1];
      FixedRunRendersEveryPass(s0, init);
      assert KeepsFix(ts[|ts| - 1]);
    }
  }

  /** The running program: the UI object, `last_print` and the GPS driver's state. */
  class Dashboard {
    const ui: Ui
    var lastPrint: real
    var gps: Fix

    function Snapshot(): State
      reads this, ui
    {
      State(ui.Texts(), lastPrint, gps)
    }

    /** main.py lines 34-38: the screen with its placeholders, and `last_print` set to the
        clock reading `start`. */
    constructor Boot(start: real)
      ensures fresh(ui)
      ensures Snapshot() == State(InitialLabels, start, NoFix)
    {
      ui := new Ui.MainScreen();
      lastPrint := start;
      gps := NoFix;
    }

    /** One pass of the loop body, main.py lines 41-76. */
    method Tick(t: TickInput) returns (outcome: TickOutcome)
      modifies this, ui
      ensures Snapshot() == Step(old(Snapshot()), t)
      ensures outcome == Outcome(old(Snapshot()), t)
    {
      ghost var s := Snapshot();
      if t.bme.OtherError? {
        return Halted;
      }
      RenderBme(t.bme);
      // GPS
      match t.pump {
        case Parsed(f) => gps := f;
        case PumpFailed =>
      }
      var current := t.now;
      if GateFires(lastPrint, current) {
        lastPrint := current;
        if !gps.hasFix {
          ApplyThen(s.labels, BmeFrame(t.bme), NoWrites);
          return Skipped;
        }
      }
      // collect() happens here.
      var raised := RenderGps(gps, t.memFree);
      ApplyThen(s.labels, BmeFrame(t.bme), GpsFrame(gps, t.memFree));
      if raised {
        return Halted;
      }
      // time.sleep(1) happens here.
      return Rendered;
    }

    /** main.py lines 42-46: the sensor block's writes for a read that did not raise
        anything but a ValueError. */
    method RenderBme(b: BmeRead)
      requires !b.OtherError?
      modifies ui
      ensures ui.Texts() == Apply(old(ui.Texts()), BmeFrame(b))
    {
      match b {
        case ValueErrorBeforeSet =>
        case AltitudeValueError(temp, humi, press) =>
          ui.SetBmeValues(temp, humi, press);
        case Read(temp, humi, press, altitude) =>
          ui.SetBmeValues(temp, humi, press);
          ui.SetAltitude(altitude);
      }
    }

    /** main.py lines 58-75: the writes of a pass the fix gate let through, from the
        driver state `f`.  `raised` reports the exception of a latitude without a
        longitude, which ends the program. */
    method RenderGps(f: Fix, memFree: int) returns (raised: bool)
      modifies ui
      ensures raised == CoordsRaise(f)
      ensures ui.Texts() == Apply(old(ui.Texts()), GpsFrame(f, memFree))
    {
      ghost var l := ui.Texts();
      raised := RenderPosition(f);
      ApplyThen(l, PositionFrame(f), NoWrites);
      if raised {
        return;
      }
      RenderStatus(f, memFree);
      ApplyThen(l, PositionFrame(f), StatusFrame(f, memFree));
    }

    /** main.py lines 58-65: speed and coordinates. */
    method RenderPosition(f: Fix) returns (raised: bool)
      modifies ui
      ensures raised == CoordsRaise(f)
      ensures ui.Texts() == Apply(old(ui.Texts()), PositionFrame(f))
    {
      if f.speedKmh.Some? {
        ui.SetSpeedValue(f.speedKmh.value);
      }
      if f.latitude.Some? {
        raised := ui.SetCoordStat(f.latitude.value, f.longitude);
      } else {
        raised := ui.SetCoordStat(ZeroFixed6, Some(ZeroFixed6));
      }
    }

    /** main.py lines 66-75: satellites, fix quality, time, counter and memory status. */
    method RenderStatus(f: Fix, memFree: int)
      modifies ui
      ensures ui.Texts() == Apply(old(ui.Texts()), StatusFrame(f, memFree))
    {
      RenderFixInfo(f);
      ui.SetCounter(CounterValue);
      ui.SetSysStat(RamStatus(memFree));
    }

    /** main.py lines 66-73: the driver values that may be missing. */
    method RenderFixInfo(f: Fix)
      modifies ui
      ensures ui.Texts() == Apply(old(ui.Texts()), FixInfoFrame(f))
    {
      if f.satellites.Some? {
        ui.SetSatNum(f.satellites.value);
      }
      if f.fixQuality.Some? {
        ui.SetFixQuality(f.fixQuality.value);
      }
      if f.timestampUtc.Some? {
        ui.SetTime(f.timestampUtc.value.hour + HourOffset, f.timestampUtc.value.minute);
      }
    }

    /** The loop, run over `inputs` (one per pass) until they are used up or the program
        halts; `sleeps` counts the passes that reached `time.sleep(1)`. */
    method RunLoop(inputs: seq<TickInput>) returns (ticks: nat, sleeps: nat, halted: bool)
      modifies this, ui
      ensures Trace(Snapshot(), ticks, sleeps, halted) == Run(old(Snapshot()), inputs)
    {
      ghost var s0 := Snapshot();
      ticks, sleeps, halted := 0, 0, false;
      assert inputs[..0] == [];
      while ticks < |inputs| && !halted
        invariant ticks <= |inputs|
        invariant Trace(Snapshot(), ticks, sleeps, halted) == Run(s0, inputs[..ticks])
        decreases |inputs| - ticks
      {
        var outcome := Tick(inputs[ticks]);
        ghost var done := inputs[..ticks + 1];
        assert done[..ticks] == inputs[..ticks] && done[ticks] == inputs[ticks];
        ticks := ticks + 1;
        if outcome == Rendered {
          sleeps := sleeps + 1;
        }
        halted := outcome == Halted;
      }
      if halted {
        HaltIsFinal(s0, inputs, ticks);
      } else {
        assert inputs[..ticks] == inputs;
      }
    }
  }

  /** main.py lines 34-76 end to end: boot the screen, then run the loop over `inputs`.  The
      result is `Run` from the placeholder screen, the start time and a driver without a fix. */
  method Program(start: real, inputs: seq<TickInput>) returns (tr: Trace)
    ensures tr == Run(State(InitialLabels, start, NoFix), inputs)
  {
    var d := new Dashboard.Boot(start);
    var ticks, sleeps, halted := d.RunLoop(inputs);
    tr := Trace(d.Snapshot(), ticks, sleeps, halted);
  }
}
