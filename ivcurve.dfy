/** The IV-curve routines layered on the session: a stepped voltage sweep that
    measures the current at each step and stops early once the current
    passes 95 % of the limit, its downward mirror without the stop, and the
    full curve (reset, up, down from where the up-sweep ended, output off).
    Dwell times are not modelled: a dwell is a step that changes nothing. */
module IvCurve {
  import opened Results
  import opened Keithley
  import opened IvSpec

  class IvCurveMaker {
    const s: SourceMeter

    constructor (server: SourceMeter)
      ensures s == server
    {
      s := server;
    }

    /** The two sense-off commands set_V_out_I_sense opens with.  Because of
        the misspelt comparison only Rsense changes. */
    method SenseOffVoltRes() returns (r: Result<(), Fault>)
      modifies s
      ensures r.Ok? <==> old(s.isOpen)
      ensures s.isOpen == old(s.isOpen)
      ensures r.Err? ==> r.fault == ConnectionClosed && s.Observe() == old(s.Observe())
      ensures r.Ok? ==> s.Observe() == Observed(old(s.Flags()).(rSense := false),
                                                 old(s.log) + [Scpi(SENSE_OFF_VOLT), Scpi(SENSE_OFF_RES)], old(s.replies))
    {
      assert SENSE_ALIASES["VOLT"] == "VOLT" && SENSE_ALIASES["RES"] == "RES";
      assert ":SENS:FUNC:OFF '" + "VOLT" + "'" == SENSE_OFF_VOLT;
      assert ":SENS:FUNC:OFF '" + "RES" + "'" == SENSE_OFF_RES;
      r := s.SenseOff("VOLT");
      if r.Ok? {
        r := s.SenseOff("RES");
      }
    }

    /** source_mode('VOLT') unless Vout is already true. */
    method EnsureVoltageSource()
      requires s.isOpen
      modifies s
      ensures s.isOpen
      ensures s.Observe() == Observed(old(s.Flags()).(vOut := true, iOut := old(s.vOut) && old(s.iOut)),
                                      old(s.log) + ModeCommands(old(s.vOut)), old(s.replies))
    {
      if !s.vOut {
        assert SOURCE_ALIASES["VOLT"] == "VOLT";
        assert ":SOUR:FUNC " + "VOLT" == SOURCE_VOLT;
        var e := s.SetSourceMode("VOLT");
      }
    }

    /** The optional compliance and current range of set_V_out_I_sense. */
    method ConfigureCurrent(protI: Option<real>, rangeI: Option<RangeArg>) returns (r: Result<(), Fault>)
      requires s.isOpen
      modifies s`log, s`replies
      ensures r.Ok? <==> |old(s.replies)| >= SetupReads(rangeI)
      ensures r.Err? ==> r.fault == NoReply
      ensures r.Ok? ==> s.replies == old(s.replies)[SetupReads(rangeI)..]
      ensures r.Ok? ==> s.log == old(s.log) + CurrentCommands(protI, rangeI)
    {
      r := Ok(());
      if protI.Some? {
        r := s.SetSenseCurrentProt(protI.value);
      }
      if rangeI.Some? {
        r := s.SetSenseCurrentRange(rangeI.value);
      }
    }

    /** The level, the `sens_on` call when Isense is false (which raises: the
        session has no such method), and output_on when the output is off. */
    method LevelAndOutput(v: real) returns (r: Result<(), Fault>)
      requires s.isOpen && s.vOut
      modifies s
      ensures s.isOpen
      ensures r.Ok? <==> old(s.iSense)
      ensures r.Err? ==> r.fault == NoSuchMethod && s.Observe() == Observed(old(s.Flags()), old(s.log) + [ScpiArg(VOLT_LEVEL, v)], old(s.replies))
      ensures r.Ok? ==> s.Observe() == Observed(old(s.Flags()).(outpOn := true), old(s.log) + LevelCommands(old(s.outpOn), v), old(s.replies))
    {
      r := s.SetSourceVoltageLevel(v);
      if !s.iSense {
        return Err(NoSuchMethod);
      }
      if !s.outpOn {
        r := s.OutputOn();
      }
    }

    /** The part of set_V_out_I_sense after a voltage has been given. */
    method SourceVoltage(v: real, protI: Option<real>, rangeI: Option<RangeArg>) returns (r: Result<(), Fault>)
      requires s.isOpen
      modifies s
      ensures s.isOpen
      ensures r.Ok? <==> |old(s.replies)| >= SetupReads(rangeI) && old(s.iSense)
      ensures r.Err? ==> r.fault == NoReply || (r.fault == NoSuchMethod && !old(s.iSense) && |old(s.replies)| >= SetupReads(rangeI))
      ensures r.Ok? ==> s.Observe() == Observed(old(s.Flags()).(vOut := true, iOut := old(s.vOut) && old(s.iOut), outpOn := true),
                                                 old(s.log) + SourceCommands(old(s.Flags()), v, protI, rangeI),
                                                 old(s.replies)[SetupReads(rangeI)..])
    {
      ghost var log0, m0 := s.log, s.Flags();
      EnsureVoltageSource();
      r := ConfigureCurrent(protI, rangeI);
      if r.Err? {
        return;
      }
      r := LevelAndOutput(v);
      SourceStages(log0, m0, v, protI, rangeI);
    }

    /** set_V_out_I_sense: VOLT and RES sensing off, then (with a voltage)
        voltage sourcing if not already, the compliance and range when given,
        the level, and the output on if it was off.  Without a voltage it
        raises after the two sense-off commands; with Isense false it raises
        at the misspelt `sens_on` call, after the level has been sent. */
    method SetVOutISense(setto: Option<real>, protI: Option<real>, rangeI: Option<RangeArg>) returns (r: Result<(), Fault>)
      modifies s
      ensures s.isOpen == old(s.isOpen)
      ensures !old(s.isOpen) ==> r == Err(ConnectionClosed) && s.Observe() == old(s.Observe())
      ensures old(s.isOpen) && setto.None? ==>
                r == Err(NoVoltage) && s.log == old(s.log) + [Scpi(SENSE_OFF_VOLT), Scpi(SENSE_OFF_RES)]
      ensures r.Ok? <==> old(s.isOpen) && setto.Some? && |old(s.replies)| >= SetupReads(rangeI) && old(s.iSense)
      ensures r == Err(NoSuchMethod) ==> !old(s.iSense)
      ensures r.Ok? ==> s.Observe() == Configured(old(s.Observe()), setto.value, protI, rangeI)
      ensures r != Err(EmptyRamp)
    {
      ghost var o := s.Observe();
      r := SenseOffVoltRes();
      if r.Err? {
        return;
      }
      if setto.None? {
        return Err(NoVoltage);
      }
      r := SourceVoltage(setto.value, protI, rangeI);
      if r.Ok? {
        ConfiguredStages(o, setto.value, protI, rangeI);
      }
    }

    /** One point of a sweep: set up the voltage, trigger a measurement and
        read its reply. */
    method MeasureStep(v: real, maxI: real, rng: Option<RangeArg>) returns (r: Result<Reply, Fault>)
      modifies s
      ensures s.isOpen == old(s.isOpen)
      ensures r.Ok? <==> old(s.isOpen) && old(s.iSense) && |old(s.replies)| > SetupReads(rng)
      ensures r == Err(NoSuchMethod) ==> !old(s.iSense)
      ensures r.Ok? ==> r.value == old(s.replies)[SetupReads(rng)]
      ensures r.Ok? ==> s.Observe() == Stepped(old(s.Observe()), v, maxI, rng)
      ensures r != Err(EmptyRamp)
    {
      var e := SetVOutISense(Some(v), Some(maxI), rng);
      if e.Err? {
        return Err(e.fault);
      }
      e := s.Meas();
      r := s.Read();
      if r.Ok? {
        assert old(s.replies)[SetupReads(rng) + 1..] == old(s.replies)[SetupReads(rng)..][1..];
      }
    }

    /** One point of a sweep, stated against the whole sweep so far. */
    method Record(v: real, startV: real, maxI: real, rangeI: Option<RangeArg>, ghost start: Observed, ghost pts: seq<real>, ghost rds: seq<Reply>) returns (r: Result<Reply, Fault>)
      requires Traced(s, start, startV, maxI, rangeI, pts, rds)
      modifies s
      ensures s.isOpen
      ensures r == Err(NoSuchMethod) ==> !start.mode.iSense
      ensures r.Ok? ==> Traced(s, start, startV, maxI, rangeI, pts + [v], rds + [r.value])
      ensures r != Err(EmptyRamp)
    {
      ghost var now := s.Observe();
      r := MeasureStep(v, maxI, RangeAt(v, startV, rangeI));
      if r.Ok? {
        TraceStep(start, startV, maxI, rangeI, pts, rds, now, v, r.value);
      }
    }

    /** One point of ramp_volt_up: measure at grid[i], then convert the
        reading with float(), which fails unless the reply holds exactly one
        number; the sweep grows by that point and stops past the limit. */
    method Advance(grid: seq<real>, i: nat, sw: Sweep, startV: real, maxI: real, rangeI: Option<RangeArg>, ghost start: Observed)
      returns (r: Result<(Sweep, bool), Fault>)
      requires SweptTo(grid, i, sw, maxI * 0.95, false) && i < |grid|
      requires Traced(s, start, startV, maxI, rangeI, sw.points, sw.readings)
      modifies s
      ensures s.isOpen
      ensures r == Err(NoSuchMethod) ==> !start.mode.iSense
      ensures r.Ok? ==> SweptTo(grid, i + 1, r.value.0, maxI * 0.95, r.value.1)
      ensures r.Ok? ==> Traced(s, start, startV, maxI, rangeI, r.value.0.points, r.value.0.readings)
      ensures r != Err(EmptyRamp)
    {
      var reading := Record(grid[i], startV, maxI, rangeI, start, sw.points, sw.readings);
      if reading.Err? {
        return Err(reading.fault);
      }
      var x := ParseNumber(reading.value);
      if x.Err? {
        return Err(x.fault);
      }
      SweptStep(grid, i, sw, maxI * 0.95, reading.value);
      r := Ok((Sweep(sw.points + [grid[i]], sw.readings + [reading.value]), x.value > maxI * 0.95));
    }

    /** The loop of ramp_volt_up over `grid`: measure point after point,
        stopping right after the first reading above 95 % of maxI. */
    method SweepUp(grid: seq<real>, startV: real, maxI: real, rangeI: Option<RangeArg>) returns (r: Result<Sweep, Fault>)
      requires s.isOpen
      modifies s
      ensures s.isOpen
      ensures r == Err(NoSuchMethod) ==> !old(s.iSense)
      ensures r.Ok? ==> Traced(s, old(s.Observe()), startV, maxI, rangeI, r.value.points, r.value.readings)
      ensures r.Ok? ==> StopsWithin(grid, r.value, maxI * 0.95)
      ensures r != Err(EmptyRamp)
      ensures grid == [] ==> r == Ok(Sweep([], []))
    {
      ghost var start := s.Observe();
      assert RampLog(start.mode, startV, [], maxI, rangeI) == [];
      var sw := Sweep([], []);
      var i := 0;
      var stop := false;
      while i < |grid| && !stop
        invariant SweptTo(grid, i, sw, maxI * 0.95, stop)
        invariant Traced(s, start, startV, maxI, rangeI, sw.points, sw.readings)
      {
        var next := Advance(grid, i, sw, startV, maxI, rangeI, start);
        if next.Err? {
          return Err(next.fault);
        }
        sw, stop, i := next.value.0, next.value.1, i + 1;
      }
      SweptDone(grid, i, sw, maxI * 0.95, stop);
      r := Ok(sw);
    }

    /** ramp_volt_up: the reading format set to CURR, then the grid
        np.arange(startV, stopV + step, step) swept upwards, the caller's
        current range at startV and 'AUTO' after, stopping right after the
        first reading above 95 % of maxI. */
    method RampVoltUp(startV: real, stopV: real, step: real, maxI: real, rangeI: Option<RangeArg>) returns (r: Result<Sweep, Fault>)
      modifies s
      ensures s.isOpen == old(s.isOpen)
      ensures !old(s.isOpen) ==> r == Err(ConnectionClosed)
      ensures old(s.isOpen) && step == 0.0 ==> r == Err(InvalidStep)
      ensures r == Err(NoSuchMethod) ==> !old(s.iSense)
      ensures r.Ok? ==> step != 0.0 && UpSweep(r.value, startV, stopV, step, maxI)
      ensures r.Ok? ==> TraceOf(old(s.Observe()).(log := old(s.log) + [Scpi(FORMAT_CURR)]), startV, maxI, rangeI,
                                r.value.points, r.value.readings, s.Observe())
      ensures r != Err(EmptyRamp)
      ensures old(s.isOpen) && step != 0.0 && Arange(startV, stopV + step, step) == [] ==> r == Ok(Sweep([], []))
    {
      var f := s.SetFormat("CURR");
      if f.Err? {
        return Err(f.fault);
      }
      if step == 0.0 {
        return Err(InvalidStep);
      }
      assert ":FORM:ELEM " + "CURR" == FORMAT_CURR;
      r := SweepUp(Arange(startV, stopV + step, step), startV, maxI, rangeI);
    }

    /** One point of ramp_volt_down: measure at grid[i] and keep the raw
        reply. */
    method Descend(grid: seq<real>, i: nat, sw: Sweep, startV: real, maxI: real, rangeI: Option<RangeArg>, ghost start: Observed)
      returns (r: Result<Sweep, Fault>)
      requires Along(grid, i, sw) && i < |grid|
      requires Traced(s, start, startV, maxI, rangeI, sw.points, sw.readings)
      modifies s
      ensures s.isOpen
      ensures r == Err(NoSuchMethod) ==> !start.mode.iSense
      ensures r.Ok? ==> Along(grid, i + 1, r.value)
      ensures r.Ok? ==> Traced(s, start, startV, maxI, rangeI, r.value.points, r.value.readings)
      ensures r != Err(EmptyRamp)
    {
      var reading := Record(grid[i], startV, maxI, rangeI, start, sw.points, sw.readings);
      if reading.Err? {
        return Err(reading.fault);
      }
      assert grid[..i + 1] == grid[..i] + [grid[i]];
      r := Ok(Sweep(sw.points + [grid[i]], sw.readings + [reading.value]));
    }

    /** The loop of ramp_volt_down over `grid`: measure at every point, with
        neither a float() conversion nor an early stop. */
    method SweepDown(grid: seq<real>, startV: real, maxI: real, rangeI: Option<RangeArg>) returns (r: Result<Sweep, Fault>)
      requires s.isOpen
      modifies s
      ensures s.isOpen
      ensures r == Err(NoSuchMethod) ==> !old(s.iSense)
      ensures r.Ok? ==> r.value.points == grid && |r.value.readings| == |grid|
      ensures r.Ok? ==> Traced(s, old(s.Observe()), startV, maxI, rangeI, r.value.points, r.value.readings)
      ensures r != Err(EmptyRamp)
    {
      ghost var start := s.Observe();
      assert RampLog(start.mode, startV, [], maxI, rangeI) == [];
      var sw := Sweep([], []);
      var i := 0;
      while i < |grid|
        invariant Along(grid, i, sw)
        invariant Traced(s, start, startV, maxI, rangeI, sw.points, sw.readings)
      {
        var next := Descend(grid, i, sw, startV, maxI, rangeI, start);
        if next.Err? {
          return Err(next.fault);
        }
        sw, i := next.value, i + 1;
      }
      assert grid[..|grid|] == grid;
      r := Ok(sw);
    }

    /** ramp_volt_down: the reading format set to CURR, then the grid
        np.arange(stopV, startV + step, step)[::-1] swept from its top, the
        caller's current range at startV and 'AUTO' elsewhere. */
    method RampVoltDown(startV: real, stopV: real, step: real, maxI: real, rangeI: Option<RangeArg>) returns (r: Result<Sweep, Fault>)
      modifies s
      ensures s.isOpen == old(s.isOpen)
      ensures !old(s.isOpen) ==> r == Err(ConnectionClosed)
      ensures old(s.isOpen) && step == 0.0 ==> r == Err(InvalidStep)
      ensures r == Err(NoSuchMethod) ==> !old(s.iSense)
      ensures r.Ok? ==> step != 0.0 && r.value.points == DownGrid(startV, stopV, step) && |r.value.readings| == |r.value.points|
      ensures r.Ok? ==> TraceOf(old(s.Observe()).(log := old(s.log) + [Scpi(FORMAT_CURR)]), startV, maxI, rangeI,
                                r.value.points, r.value.readings, s.Observe())
      ensures r != Err(EmptyRamp)
    {
      var f := s.SetFormat("CURR");
      if f.Err? {
        return Err(f.fault);
      }
      if step == 0.0 {
        return Err(InvalidStep);
      }
      assert ":FORM:ELEM " + "CURR" == FORMAT_CURR;
      r := SweepDown(DownGrid(startV, stopV, step), startV, maxI, rangeI);
    }

    /** The second half of makeIVCurve: sweep down from the last voltage the
        up-sweep reached back to startV, then switch the output off. */
    method SweepBack(up: Sweep, startV: real, stopV: real, step: real, maxI: real, rangeI: Option<RangeArg>) returns (r: Result<Sweep, Fault>)
      requires s.isOpen && step != 0.0 && UpSweep(up, startV, stopV, step, maxI) && up.points != []
      modifies s
      ensures s.isOpen
      ensures r != Err(EmptyRamp)
      ensures r.Ok? ==> r.value.points == Reversed(up.points) && |r.value.readings| == |r.value.points|
      ensures r.Ok? ==> r.value.points[0] == up.points[|up.points| - 1] && r.value.points[|up.points| - 1] == startV
      ensures r.Ok? ==> SweptThenOff(old(s.Observe()).(log := old(s.log) + [Scpi(FORMAT_CURR)]), up.points[|up.points| - 1],
                                     maxI, rangeI, r.value.points, r.value.readings, s.Observe())
    {
      var downStart := up.points[|up.points| - 1];
      Retrace(up, startV, stopV, step, maxI);
      r := RampVoltDown(downStart, startV, step, maxI, rangeI);
      if r.Ok? {
        ghost var swept := s.Observe();
        var e := s.OutputOff();
        assert s.Observe() == OutputOffIn(swept);
      }
    }

    /** makeIVCurve: reset, sweep up from startV towards stopV, sweep back
        down from the last voltage the up-sweep reached to startV, switch the
        output off; the result is the down-sweep and the up-sweep.  An
        up-sweep with no points fails when its last point is taken. */
    method MakeIvCurve(startV: real, stopV: real, step: real, maxI: real, rangeI: Option<RangeArg>) returns (r: Result<(Sweep, Sweep), Fault>)
      modifies s
      ensures s.isOpen == old(s.isOpen)
      ensures !old(s.isOpen) ==> r == Err(ConnectionClosed)
      ensures old(s.isOpen) && step == 0.0 ==> r == Err(InvalidStep)
      ensures r == Err(EmptyRamp) <==> old(s.isOpen) && step != 0.0 && Arange(startV, stopV + step, step) == []
      ensures r.Ok? ==> step != 0.0 && UpSweep(r.value.1, startV, stopV, step, maxI)
      ensures r.Ok? ==> r.value.0.points == Reversed(r.value.1.points) && |r.value.0.readings| == |r.value.0.points|
      ensures r.Ok? ==> r.value.0.points[0] == r.value.1.points[|r.value.1.points| - 1]
      ensures r.Ok? ==> r.value.0.points[|r.value.0.points| - 1] == startV
      ensures r.Ok? ==> CurveOf(old(s.Observe()), startV, maxI, rangeI, r.value.1, r.value.0, s.Observe())
    {
      ghost var o0 := s.Observe();
      var e := s.Reset();
      if e.Err? {
        return Err(e.fault);
      }
      assert s.Observe().(log := s.log + [Scpi(FORMAT_CURR)])
          == o0.(mode := Defaults, log := o0.log + [Scpi("*RST"), Scpi(FORMAT_CURR)]);
      var up := RampVoltUp(startV, stopV, step, maxI, rangeI);
      if up.Err? {
        return Err(up.fault);
      }
      if up.value.points == [] {
        return Err(EmptyRamp);
      }
      var down := SweepBack(up.value, startV, stopV, step, maxI, rangeI);
      if down.Err? {
        return Err(down.fault);
      }
      r := Ok((down.value, up.value));
    }
  }
}
