/** The operator panel of the test stand: the bias clamp, the instrument
    wrapper that caches the source range and ramps the bias down on close,
    and the panel's control rules (manual and automatic voltage steps, the
    over-current reaction, and the bookkeeping of the measurement log). */
module TestStand {
  import opened Results
  import opened Keithley

  /** The largest bias the panel ever requests, in volts. */
  const MAX_BIAS := 1100.0
  /** setv picks the low source range up to this level, the high one above. */
  const LOW_RANGE := 21.0
  const HIGH_RANGE := 1100.0
  /** close ramps the bias down in steps of this many volts. */
  const CLOSE_STEP := 5.0
  /** A reading above this current, in amperes, forces a step down. */
  const MAX_CURRENT := 0.001
  /** The auto-step current limit is entered in microamperes. */
  const MICRO := 0.000001
  /** A measurement is due once this fraction of its interval has passed. */
  const MEAS_ACTUAL_MODIFIER := 0.8
  /** The two auto-step directions of the direction drop-down. */
  const UP := "up"
  const DOWN := "down"

  // ---------------------------------------------------------------------
  // The clamp
  // ---------------------------------------------------------------------

  /** checkv: a requested bias clamped into [0, 1100]. */
  function Checkv(voltage: real): (v: real)
    ensures 0.0 <= v <= MAX_BIAS
    ensures 0.0 <= voltage <= MAX_BIAS ==> v == voltage
    ensures voltage < 0.0 ==> v == 0.0
    ensures voltage > MAX_BIAS ==> v == MAX_BIAS
  {
    if voltage < 0.0 then 0.0
    else if voltage > MAX_BIAS then MAX_BIAS
    else voltage
  }

  /** Clamping twice is clamping once. */
  lemma CheckvIdempotent(voltage: real)
    ensures Checkv(Checkv(voltage)) == Checkv(voltage)
  {
  }

  /** The clamp keeps the order of requests. */
  lemma CheckvMonotone(a: real, b: real)
    ensures a <= b ==> Checkv(a) <= Checkv(b)
  {
  }

  // ---------------------------------------------------------------------
  // The instrument wrapper
  // ---------------------------------------------------------------------

  /** The source range setv asks for: the low range exactly when the level
      fits in it, and a range that holds every level the clamp lets
      through. */
  function RangeFor(v: real): (range: real)
    ensures range == LOW_RANGE <==> v <= LOW_RANGE
    ensures range == LOW_RANGE || range == HIGH_RANGE
    ensures v <= MAX_BIAS ==> v <= range
  {
    if v > LOW_RANGE then HIGH_RANGE else LOW_RANGE
  }

  /** What set_source_voltage_range writes for a request, given the cached
      range: nothing on a hit, else the setting and its read-back. */
  function RangeSwitch(cache: Option<real>, setto: real): (cmds: seq<Command>)
    ensures cmds == [] <==> cache == Some(setto)
    ensures cmds != [] ==> cmds[0] == ScpiArg(VOLT_RANGE, setto)
  {
    if cache == Some(setto) then [] else [ScpiArg(VOLT_RANGE, setto), Scpi(VOLT_RANGE_QUERY)]
  }

  /** The levels close sends on its way down from a measured bias v:
      v-5, v-10, ... as long as the level before was above 5 V. */
  function DownLevels(v: real): (levels: seq<real>)
    decreases if v > CLOSE_STEP then v.Floor else 0
    ensures levels != [] <==> v > CLOSE_STEP
    ensures forall i :: 0 <= i < |levels| ==> 0.0 < levels[i] < v
    ensures levels != [] ==> levels[0] == v - CLOSE_STEP && levels[|levels| - 1] <= CLOSE_STEP
  {
    if v > CLOSE_STEP then [v - CLOSE_STEP] + DownLevels(v - CLOSE_STEP) else []
  }

  /** Each level is 5 V below the one before, so the ramp falls strictly;
      every level but the last is above 5 V. */
  lemma {:induction false} DownLevelsFall(v: real)
    ensures forall i :: 0 <= i < |DownLevels(v)| - 1 ==>
              DownLevels(v)[i + 1] == DownLevels(v)[i] - CLOSE_STEP && DownLevels(v)[i] > CLOSE_STEP
  {
    if v > CLOSE_STEP {
      DownLevelsFall(v - CLOSE_STEP);
      var rest := DownLevels(v - CLOSE_STEP);
      assert forall j :: 0 <= j < |rest| - 1 ==> rest[j + 1] == rest[j] - CLOSE_STEP && rest[j] > CLOSE_STEP;
      assert DownLevels(v) == [v - CLOSE_STEP] + rest;
      forall i | 0 <= i < |DownLevels(v)| - 1
        ensures DownLevels(v)[i + 1] == DownLevels(v)[i] - CLOSE_STEP && DownLevels(v)[i] > CLOSE_STEP
      {
        if i == 0 {
          assert DownLevels(v)[1] == rest[0];
        } else {
          assert DownLevels(v)[i + 1] == rest[i] && DownLevels(v)[i] == rest[i - 1];
          assert rest[(i - 1) + 1] == rest[i - 1] - CLOSE_STEP;
        }
      }
    }
  }

  /** The commands that set each of `levels` in turn. */
  function LevelsSent(levels: seq<real>): (cmds: seq<Command>)
    ensures |cmds| == |levels|
    ensures forall i :: 0 <= i < |levels| ==> cmds[i] == ScpiArg(VOLT_LEVEL, levels[i])
  {
    seq(|levels|, i requires 0 <= i < |levels| => ScpiArg(VOLT_LEVEL, levels[i]))
  }

  /** Setting one more level extends the commands by its setting. */
  lemma LevelsSentAppend(levels: seq<real>, v: real)
    ensures LevelsSent(levels + [v]) == LevelsSent(levels) + [ScpiArg(VOLT_LEVEL, v)]
  {
  }

  /** ivServer: a source-meter session that remembers the voltage range it
      last read back. */
  class IvServer {
    const s: SourceMeter
    /** The range read back after the last range change; None before. */
    var sourceVoltageRange: Option<real>

    /** The session is taken as given; the range cache starts empty. */
    constructor (meter: SourceMeter)
      ensures s == meter && sourceVoltageRange == None
    {
      s := meter;
      sourceVoltageRange := None;
    }

    /** set_source_voltage_range: a request equal to the cached range sends
        nothing; any other sets the range and caches the value read back. */
    method SetSourceVoltageRange(setto: real) returns (r: Result<(), Fault>)
      modifies this`sourceVoltageRange, s`log, s`replies
      ensures old(sourceVoltageRange) == Some(setto) ==>
                r == Ok(()) && sourceVoltageRange == old(sourceVoltageRange)
                && s.log == old(s.log) && s.replies == old(s.replies)
      ensures old(sourceVoltageRange) != Some(setto) ==>
                (r.Ok? <==> s.vOut && s.isOpen && old(s.replies) != [] && |old(s.replies)[0].numbers| == 1)
      ensures r.Ok? ==> s.log == old(s.log) + RangeSwitch(old(sourceVoltageRange), setto)
      ensures r.Ok? && old(sourceVoltageRange) != Some(setto) ==>
                sourceVoltageRange == Some(old(s.replies)[0].numbers[0]) && s.replies == old(s.replies)[1..]
      ensures r.Err? ==> sourceVoltageRange == old(sourceVoltageRange)
      ensures !old(s.isOpen) ==> s.log == old(s.log) && s.replies == old(s.replies)
      ensures !old(s.isOpen) && old(sourceVoltageRange) != Some(setto) ==> r.Err?
    {
      if sourceVoltageRange == Some(setto) {
        return Ok(());
      }
      var w := s.SetSourceVoltageRange(setto);
      if w.Err? {
        return Err(w.fault);
      }
      var q := s.SourceVoltageRange();
      if q.Err? {
        return Err(q.fault);
      }
      sourceVoltageRange := Some(q.value);
      r := Ok(());
    }

    /** The replies setv reads: the range read-back when the range changes,
        then the range, compliance and current-range queries. */
    function SetvReads(v: real): (n: nat)
      reads this
      ensures n == 3 || n == 4
    {
      if sourceVoltageRange == Some(RangeFor(v)) then 3 else 4
    }

    /** setv: choose the range for the level, read the range back, set the
        level, then read the compliance and the current range. */
    method Setv(v: real) returns (r: Result<(), Fault>)
      modifies this`sourceVoltageRange, s`log, s`replies
      ensures r.Ok? ==> s.isOpen && s.vOut && sourceVoltageRange.Some?
      ensures r.Ok? ==> s.log == old(s.log) + RangeSwitch(old(sourceVoltageRange), RangeFor(v))
                          + [Scpi(VOLT_RANGE_QUERY), ScpiArg(VOLT_LEVEL, v), Scpi(CURR_PROT_QUERY), Scpi(CURR_RANGE_QUERY)]
      ensures r.Ok? ==> |old(s.replies)| >= old(SetvReads(v)) && s.replies == old(s.replies)[old(SetvReads(v))..]
      ensures r.Ok? <==> old(s.isOpen) && old(s.vOut) && |old(s.replies)| >= old(SetvReads(v))
                         && forall i :: 0 <= i < old(SetvReads(v)) - 2 ==> |old(s.replies)[i].numbers| == 1
      ensures !old(s.isOpen) ==> r.Err? && s.log == old(s.log) && s.replies == old(s.replies)
      ensures sourceVoltageRange ==
                if old(sourceVoltageRange) != Some(RangeFor(v)) && old(s.isOpen) && s.vOut
                   && old(s.replies) != [] && |old(s.replies)[0].numbers| == 1
                then Some(old(s.replies)[0].numbers[0])
                else old(sourceVoltageRange)
    {
      ghost var log0, replies0, k := s.log, s.replies, SetvReads(v);
      var e := SetSourceVoltageRange(RangeFor(v));
      if e.Err? {
        return Err(e.fault);
      }
      ghost var log1, replies1 := s.log, s.replies;
      var q := s.SourceVoltageRange();
      if q.Err? {
        return Err(q.fault);
      }
      e := s.SetSourceVoltageLevel(v);
      if e.Err? {
        return Err(e.fault);
      }
      var p := s.QuerySenseCurrentProt();
      if p.Err? {
        return Err(p.fault);
      }
      var g := s.QuerySenseCurrentRange();
      if g.Err? {
        return Err(g.fault);
      }
      assert replies1 == replies0[k - 3..];
      assert s.replies == replies1[3..];
      r := Ok(());
    }

    /** meas: trigger a reading and take the first two fields of the
        answer as (voltage, current). */
    method Meas() returns (r: Result<(real, real), Fault>)
      modifies s`log, s`replies
      ensures r.Ok? <==> s.isOpen && old(s.replies) != [] && |old(s.replies)[0].numbers| >= 2
      ensures r.Ok? ==> r.value == (old(s.replies)[0].numbers[0], old(s.replies)[0].numbers[1])
      ensures r.Ok? ==> s.log == old(s.log) + [Scpi(READ)] && s.replies == old(s.replies)[1..]
      ensures !s.isOpen ==> r == Err(ConnectionClosed) && s.log == old(s.log) && s.replies == old(s.replies)
      ensures s.isOpen && old(s.replies) == [] ==> r == Err(NoReply) && s.log == old(s.log) + [Scpi(READ)] && s.replies == old(s.replies)
      ensures s.isOpen && old(s.replies) != [] && |old(s.replies)[0].numbers| < 2 ==>
                r == Err(NotANumber) && s.log == old(s.log) + [Scpi(READ)] && s.replies == old(s.replies)[1..]
    {
      var m := s.Meas();
      if m.Err? {
        return Err(m.fault);
      }
      var rd := s.Read();
      if rd.Err? {
        return Err(rd.fault);
      }
      if |rd.value.numbers| < 2 {
        return Err(NotANumber);
      }
      r := Ok((rd.value.numbers[0], rd.value.numbers[1]));
    }

    /** The loop of close: from the measured bias v, set v-5, v-10, ...
        while the bias before the step is above 5 V. */
    method RampDown(v0: real) returns (r: Result<(), Fault>)
      modifies s`log
      ensures r.Ok? <==> (s.isOpen && s.vOut) || DownLevels(v0) == []
      ensures r.Ok? ==> s.log == old(s.log) + LevelsSent(DownLevels(v0))
      ensures r.Err? ==> s.log == old(s.log)
    {
      ghost var levels := DownLevels(v0);
      DownLevelsFall(v0);
      var v := v0;
      ghost var k := 0;
      while v > CLOSE_STEP
        invariant k <= |levels|
        invariant v == if k == 0 then v0 else levels[k - 1]
        invariant v > CLOSE_STEP <==> k < |levels|
        invariant s.log == old(s.log) + LevelsSent(levels[..k])
        invariant k > 0 ==> s.isOpen && s.vOut
        invariant k == 0 ==> s.log == old(s.log)
        decreases |levels| - k
      {
        assert v - CLOSE_STEP == levels[k] by {
          if k > 0 {
            assert levels[(k - 1) + 1] == levels[k - 1] - CLOSE_STEP;
          }
        }
        assert k + 1 < |levels| ==> levels[k] > CLOSE_STEP;
        v := v - CLOSE_STEP;
        var e := s.SetSourceVoltageLevel(v);
        if e.Err? {
          return Err(e.fault);
        }
        assert levels[..k + 1] == levels[..k] + [v];
        LevelsSentAppend(levels[..k], v);
        k := k + 1;
      }
      assert levels[..k] == levels;
      r := Ok(());
    }

    /** The levels close sets after measuring the bias v: the ramp down,
        then 0 V. */
    method RampToZero(v: real) returns (r: Result<(), Fault>)
      modifies s`log
      ensures r.Ok? <==> s.isOpen && s.vOut
      ensures r.Ok? ==> s.log == old(s.log) + LevelsSent(DownLevels(v) + [0.0])
      ensures r.Err? ==> s.log == old(s.log)
    {
      r := RampDown(v);
      if r.Err? {
        return;
      }
      r := s.SetSourceVoltageLevel(0.0);
      if r.Ok? {
        LevelsSentAppend(DownLevels(v), 0.0);
      }
    }

    /** close: measure the bias, ramp it down 5 V at a time while it is
        above 5 V, set 0 V, switch the output off and end the session. */
    method Close() returns (r: Result<(), Fault>)
      modifies s
      ensures r.Ok? <==> old(s.isOpen) && old(s.vOut) && old(s.replies) != [] && |old(s.replies)[0].numbers| >= 2
      ensures r.Ok? ==> !s.isOpen && s.Flags() == old(s.Flags()).(outpOn := false) && s.replies == old(s.replies)[1..]
      ensures r.Ok? ==> s.log == old(s.log) + [Scpi(READ)]
                          + LevelsSent(DownLevels(old(s.replies)[0].numbers[0]) + [0.0]) + [Scpi(OUTPUT_OFF)]
      ensures r.Err? ==> s.isOpen == old(s.isOpen) && s.Flags() == old(s.Flags())
      ensures !old(s.isOpen) ==> r.Err? && s.log == old(s.log) && s.replies == old(s.replies)
      ensures r.Err? && old(s.isOpen) ==>
                s.log == old(s.log) + [Scpi(READ)]
                && s.replies == (if old(s.replies) == [] then old(s.replies) else old(s.replies)[1..])
    {
      var m := Meas();
      if m.Err? {
        return Err(m.fault);
      }
      var e := RampToZero(m.value.0);
      if e.Err? {
        return Err(e.fault);
      }
      e := s.OutputOff();
      var c := s.Close();
      r := Ok(());
    }
  }

  // ---------------------------------------------------------------------
  // The panel's state as a value
  // ---------------------------------------------------------------------

  /** `data`: the four columns of the measurement log, one entry per
      measurement. */
  datatype Columns = Columns(times: seq<real>, biases: seq<real>, currents: seq<real>, voltages: seq<real>)

  /** Everything the panel's control rules read or write.  `requested` is
      the sequence of biases handed to the instrument wrapper's setv. */
  datatype PanelState = PanelState(
    bias: real,
    autoStep: bool,
    autoStepTimer: Option<real>,
    autoStepInterval: Option<real>,
    autoStepVoltageStop: Option<real>,
    autoStepMaxCurrent: Option<real>,
    autoStepMode: Option<string>,
    lastTime: Option<real>,
    measurementInterval: real,
    measurementTimer: real,
    firstIdx: nat,
    recentIdx: nat,
    firstMeasurementTime: Option<real>,
    data: Columns,
    requested: seq<real>)

  /** Auto-stepping has its timer, interval and stop voltage. */
  predicate Armed(p: PanelState)
  {
    p.autoStep ==> p.autoStepTimer.Some? && p.autoStepInterval.Some? && p.autoStepVoltageStop.Some?
  }

  /** What every control rule keeps: auto-stepping is armed, the four data
      columns have one entry per measurement, the plot indices lie inside
      them, the start of the clock is known once anything was measured,
      and every bias is within the clamp. */
  predicate Consistent(p: PanelState)
  {
    && Armed(p)
    && |p.data.biases| == |p.data.times| && |p.data.currents| == |p.data.times| && |p.data.voltages| == |p.data.times|
    && p.firstIdx <= p.recentIdx <= |p.data.times|
    && (p.firstMeasurementTime.None? <==> p.data.times == [])
    && 0.0 <= p.bias <= MAX_BIAS
    && (forall i :: 0 <= i < |p.requested| ==> 0.0 <= p.requested[i] <= MAX_BIAS)
  }

  /** The state of a freshly opened panel. */
  function Initial(measurementInterval: real): (p: PanelState)
    ensures Consistent(p) && !p.autoStep && p.data.times == [] && p.requested == []
  {
    PanelState(0.0, false, None, None, None, None, None, None, measurementInterval, 0.0,
               0, 0, None, Columns([], [], [], []), [])
  }

  /** The measurement log is as it was. */
  predicate SameData(p: PanelState, q: PanelState)
  {
    q.data == p.data
  }

  /** q continues p: each data column of p is a prefix of q's, the
      recent-change index never moves back, and the first-change index is
      fixed once a change was recorded past the start of the log. */
  predicate Extends(p: PanelState, q: PanelState)
  {
    && p.data.times <= q.data.times && p.data.biases <= q.data.biases && p.data.currents <= q.data.currents && p.data.voltages <= q.data.voltages
    && p.requested <= q.requested
    && p.recentIdx <= q.recentIdx
    && (p.recentIdx != 0 ==> q.firstIdx == p.firstIdx)
  }

  /** A control rule took a consistent panel to a consistent one that
      continues it. */
  predicate Keeps(p: PanelState, q: PanelState)
  {
    Consistent(q) && Extends(p, q)
  }

  /** _changeVoltage: hand the bias to setv, move the recent-change index to
      the end of the log (and the first-change index too while no change
      has been recorded at a later index), and restart the measurement
      clock. */
  function ChangedVoltage(p: PanelState, v: real): (q: PanelState)
    ensures SameData(p, q) && q.requested == p.requested + [v]
    ensures q.recentIdx == |p.data.times| && q.measurementTimer == 0.0
    ensures p.recentIdx == 0 ==> q.firstIdx == |p.data.times|
    ensures p.recentIdx != 0 ==> q.firstIdx == p.firstIdx
  {
    p.(requested := p.requested + [v],
       firstIdx := if p.recentIdx == 0 then |p.data.times| else p.firstIdx,
       recentIdx := |p.data.times|,
       measurementTimer := 0.0)
  }

  /** autoStepOff. */
  function AutoStepOffState(p: PanelState): (q: PanelState)
    ensures !q.autoStep && q.autoStepTimer.None? && Armed(q)
    ensures SameData(p, q) && q.bias == p.bias && q.requested == p.requested
  {
    p.(autoStepTimer := None, autoStep := false)
  }

  /** autoStepOn, with the widget values it reads as parameters; the
      current limit is None when its check box is clear. */
  function AutoStepOnState(p: PanelState, interval: real, stop: real, maxCurrent: Option<real>, mode: string): (q: PanelState)
    ensures q.autoStep && Armed(q) && q.autoStepTimer == Some(0.0) && q.autoStepMode == Some(mode)
    ensures q.autoStepVoltageStop == Some(stop) && q.autoStepMaxCurrent == maxCurrent
    ensures SameData(p, q) && q.bias == p.bias && q.requested == p.requested
  {
    p.(autoStepInterval := Some(interval), autoStepVoltageStop := Some(stop),
       autoStepMaxCurrent := maxCurrent, autoStepMode := Some(mode),
       autoStepTimer := Some(0.0), autoStep := true)
  }

  /** updateAutoStepInterval: the interval spin box's value becomes the
      auto-step interval. */
  function IntervalUpdated(p: PanelState, interval: real): (q: PanelState)
    ensures q.autoStepInterval == Some(interval) && q.autoStep == p.autoStep && q.autoStepTimer == p.autoStepTimer
    ensures SameData(p, q) && q.bias == p.bias && q.requested == p.requested
  {
    p.(autoStepInterval := Some(interval))
  }

  /** updateAutoStepVoltageStop: the stop spin box's value becomes the
      auto-step stop voltage. */
  function StopUpdated(p: PanelState, stop: real): (q: PanelState)
    ensures q.autoStepVoltageStop == Some(stop) && q.autoStep == p.autoStep && q.autoStepTimer == p.autoStepTimer
    ensures SameData(p, q) && q.bias == p.bias && q.requested == p.requested
  {
    p.(autoStepVoltageStop := Some(stop))
  }

  /** updateAutoStepMaxCurrent: the current limit, None when its check box
      is clear. */
  function MaxCurrentUpdated(p: PanelState, maxCurrent: Option<real>): (q: PanelState)
    ensures q.autoStepMaxCurrent == maxCurrent && q.autoStep == p.autoStep && q.autoStepTimer == p.autoStepTimer
    ensures SameData(p, q) && q.bias == p.bias && q.requested == p.requested
  {
    p.(autoStepMaxCurrent := maxCurrent)
  }

  /** updateAutoStepMode: the direction drop-down's text. */
  function ModeUpdated(p: PanelState, mode: string): (q: PanelState)
    ensures q.autoStepMode == Some(mode) && q.autoStep == p.autoStep && q.autoStepTimer == p.autoStepTimer
    ensures SameData(p, q) && q.bias == p.bias && q.requested == p.requested
  {
    p.(autoStepMode := Some(mode))
  }

  /** changeMeasurementInterval: the measurement spin box's value becomes
      the measurement interval; the running measurement clock is kept. */
  function MeasurementIntervalChanged(p: PanelState, interval: real): (q: PanelState)
    ensures q.measurementInterval == interval && q.measurementTimer == p.measurementTimer && q.autoStep == p.autoStep
    ensures SameData(p, q) && q.bias == p.bias && q.requested == p.requested
  {
    p.(measurementInterval := interval)
  }

  /** setVoltage: change to the clamped value of the spin box. */
  function VoltageSet(p: PanelState, value: real): (q: PanelState)
    ensures SameData(p, q) && q.autoStep == p.autoStep
    ensures q.bias == Checkv(value) && q.requested == p.requested + [q.bias]
  {
    var v := Checkv(value);
    ChangedVoltage(p, v).(bias := v)
  }

  /** stepUp: one step up through the clamp; auto-stepping upwards ends
      once the new bias reaches the stop voltage. */
  function SteppedUp(p: PanelState, stepSize: real): (q: PanelState)
    requires Armed(p)
    ensures Armed(q) && SameData(p, q)
    ensures q.bias == Checkv(p.bias + stepSize) && q.requested == p.requested + [q.bias]
    ensures q.autoStep <==> p.autoStep && !(p.autoStepMode == Some(UP) && q.bias >= p.autoStepVoltageStop.value)
  {
    var v := Checkv(p.bias + stepSize);
    var q := ChangedVoltage(p, v).(bias := v);
    if q.autoStep && q.autoStepMode == Some(UP) && v >= q.autoStepVoltageStop.value then AutoStepOffState(q) else q
  }

  /** stepDown: one step down through the clamp; auto-stepping downwards
      ends once the new bias reaches the stop voltage. */
  function SteppedDown(p: PanelState, stepSize: real): (q: PanelState)
    requires Armed(p)
    ensures Armed(q) && SameData(p, q)
    ensures q.bias == Checkv(p.bias - stepSize) && q.requested == p.requested + [q.bias]
    ensures q.autoStep <==> p.autoStep && !(p.autoStepMode == Some(DOWN) && q.bias <= p.autoStepVoltageStop.value)
  {
    var v := Checkv(p.bias - stepSize);
    var q := ChangedVoltage(p, v).(bias := v);
    if q.autoStep && q.autoStepMode == Some(DOWN) && v <= q.autoStepVoltageStop.value then AutoStepOffState(q) else q
  }

  /** The log after one reading at wall-clock time `now`, before any
      reaction: the time since the first measurement (0 for the first),
      the bias, the current and the measured voltage are appended. */
  function Logged(p: PanelState, now: real, voltage: real, current: real): (q: PanelState)
    ensures q.data.biases == p.data.biases + [p.bias] && q.data.currents == p.data.currents + [current] && q.data.voltages == p.data.voltages + [voltage]
    ensures |q.data.times| == |p.data.times| + 1 && p.data.times <= q.data.times
    ensures p.firstMeasurementTime.None? ==> q.data.times[|p.data.times|] == 0.0 && q.firstMeasurementTime == Some(now)
    ensures p.firstMeasurementTime.Some? ==>
              q.data.times[|p.data.times|] == now - p.firstMeasurementTime.value && q.firstMeasurementTime == p.firstMeasurementTime
  {
    var t := if p.firstMeasurementTime.None? then 0.0 else now - p.firstMeasurementTime.value;
    p.(firstMeasurementTime := if p.firstMeasurementTime.None? then Some(now) else p.firstMeasurementTime,
       data := Columns(p.data.times + [t], p.data.biases + [p.bias],
                       p.data.currents + [current], p.data.voltages + [voltage]))
  }

  /** doMeasurement: log the reading; a current above MAX_CURRENT forces a
      step down; otherwise, while auto-stepping with a limit set, a current
      above the limit (in microamperes) ends auto-stepping. */
  function Measured(p: PanelState, now: real, voltage: real, current: real, stepSize: real): (q: PanelState)
    requires Armed(p)
    ensures Armed(q) && SameData(Logged(p, now, voltage, current), q)
    ensures current > MAX_CURRENT ==> q == SteppedDown(Logged(p, now, voltage, current), stepSize)
    ensures current <= MAX_CURRENT ==> q.bias == p.bias && q.requested == p.requested
    ensures current <= MAX_CURRENT ==>
              (q.autoStep <==> p.autoStep && !(p.autoStepMaxCurrent.Some? && current > p.autoStepMaxCurrent.value * MICRO))
  {
    var q := Logged(p, now, voltage, current);
    if current > MAX_CURRENT then SteppedDown(q, stepSize)
    else if q.autoStep && q.autoStepMaxCurrent.Some? && current > q.autoStepMaxCurrent.value * MICRO then AutoStepOffState(q)
    else q
  }

  /** The auto-step branch of timer_event, `dt` seconds after the last
      event: the auto-step timer advances; when it reaches the interval it
      restarts at 0 and the panel steps in the chosen direction. */
  function AutoTicked(p: PanelState, dt: real, stepSize: real): (q: PanelState)
    requires Armed(p)
    ensures Armed(q) && SameData(p, q)
    ensures !p.autoStep ==> q == p
    ensures p.autoStep && p.autoStepTimer.value + dt < p.autoStepInterval.value ==>
              q == p.(autoStepTimer := Some(p.autoStepTimer.value + dt))
    ensures p.autoStep && p.autoStepTimer.value + dt >= p.autoStepInterval.value ==>
              var fired := p.(autoStepTimer := Some(0.0));
              && (p.autoStepMode == Some(UP) ==> q == SteppedUp(fired, stepSize))
              && (p.autoStepMode == Some(DOWN) ==> q == SteppedDown(fired, stepSize))
              && (p.autoStepMode != Some(UP) && p.autoStepMode != Some(DOWN) ==> q == fired)
  {
    if !p.autoStep then p
    else
      var timer := p.autoStepTimer.value + dt;
      if timer >= p.autoStepInterval.value then
        var fired := p.(autoStepTimer := Some(0.0));
        if fired.autoStepMode == Some(UP) then SteppedUp(fired, stepSize)
        else if fired.autoStepMode == Some(DOWN) then SteppedDown(fired, stepSize)
        else fired
      else p.(autoStepTimer := Some(timer))
  }

  /** After auto-stepping fires, its timer reads 0 again unless the step
      itself ended auto-stepping. */
  lemma AutoTickRestarts(p: PanelState, dt: real, stepSize: real)
    requires Armed(p) && p.autoStep && p.autoStepTimer.value + dt >= p.autoStepInterval.value
    ensures var q := AutoTicked(p, dt, stepSize);
            q.autoStepTimer == (if q.autoStep then Some(0.0) else None)
  {
  }

  /** The measurement clock of timer_event at wall-clock time `now`: the
      elapsed time since the last event (0 at the first) is added. */
  function Clocked(p: PanelState, now: real): (q: PanelState)
    ensures q.lastTime == Some(now)
    ensures p.lastTime.None? ==> q.measurementTimer == p.measurementTimer
    ensures p.lastTime.Some? ==> q.measurementTimer == p.measurementTimer + (now - p.lastTime.value)
  {
    var dt := if p.lastTime.None? then 0.0 else now - p.lastTime.value;
    p.(lastTime := Some(now), measurementTimer := p.measurementTimer + dt)
  }

  /** timer_event at wall-clock time `now`, without the plot refresh: the
      measurement clock advances, a due measurement is taken with the
      reading supplied (and the measurement clock restarts), then the
      auto-step branch runs with the same elapsed time. */
  function Ticked(p: PanelState, now: real, voltage: real, current: real, stepSize: real): (q: PanelState)
    requires Armed(p)
    ensures Armed(q) && q.lastTime == Some(now)
    ensures var c := Clocked(p, now);
            && (c.measurementTimer >= c.measurementInterval * MEAS_ACTUAL_MODIFIER ==> q.data == Logged(p, now, voltage, current).data)
            && (c.measurementTimer < c.measurementInterval * MEAS_ACTUAL_MODIFIER ==> q.data == p.data)
  {
    var dt := if p.lastTime.None? then 0.0 else now - p.lastTime.value;
    var c := Clocked(p, now);
    var m := if c.measurementTimer >= c.measurementInterval * MEAS_ACTUAL_MODIFIER
             then Measured(c.(measurementTimer := 0.0), now, voltage, current, stepSize)
             else c;
    AutoTicked(m, dt, stepSize)
  }

  // ---------------------------------------------------------------------
  // Each rule keeps the panel consistent
  // ---------------------------------------------------------------------

  lemma ExtendsTransitive(p: PanelState, q: PanelState, r: PanelState)
    requires Extends(p, q) && Extends(q, r)
    ensures Extends(p, r)
  {
  }

  lemma ChangedKeeps(p: PanelState, v: real)
    requires Consistent(p) && 0.0 <= v <= MAX_BIAS
    ensures Keeps(p, ChangedVoltage(p, v).(bias := v))
  {
  }

  lemma AutoStepOffKeeps(p: PanelState)
    requires Consistent(p)
    ensures Keeps(p, AutoStepOffState(p))
  {
  }

  lemma AutoStepOnKeeps(p: PanelState, interval: real, stop: real, maxCurrent: Option<real>, mode: string)
    requires Consistent(p)
    ensures Keeps(p, AutoStepOnState(p, interval, stop, maxCurrent, mode))
  {
  }

  lemma IntervalUpdatedKeeps(p: PanelState, interval: real)
    requires Consistent(p)
    ensures Keeps(p, IntervalUpdated(p, interval))
  {
  }

  lemma StopUpdatedKeeps(p: PanelState, stop: real)
    requires Consistent(p)
    ensures Keeps(p, StopUpdated(p, stop))
  {
  }

  lemma MaxCurrentUpdatedKeeps(p: PanelState, maxCurrent: Option<real>)
    requires Consistent(p)
    ensures Keeps(p, MaxCurrentUpdated(p, maxCurrent))
  {
  }

  lemma ModeUpdatedKeeps(p: PanelState, mode: string)
    requires Consistent(p)
    ensures Keeps(p, ModeUpdated(p, mode))
  {
  }

  lemma MeasurementIntervalChangedKeeps(p: PanelState, interval: real)
    requires Consistent(p)
    ensures Keeps(p, MeasurementIntervalChanged(p, interval))
  {
  }

  lemma VoltageSetKeeps(p: PanelState, value: real)
    requires Consistent(p)
    ensures Keeps(p, VoltageSet(p, value))
  {
    ChangedKeeps(p, Checkv(value));
  }

  lemma SteppedUpKeeps(p: PanelState, stepSize: real)
    requires Consistent(p)
    ensures Keeps(p, SteppedUp(p, stepSize))
  {
    var v := Checkv(p.bias + stepSize);
    ChangedKeeps(p, v);
    AutoStepOffKeeps(ChangedVoltage(p, v).(bias := v));
  }

  lemma SteppedDownKeeps(p: PanelState, stepSize: real)
    requires Consistent(p)
    ensures Keeps(p, SteppedDown(p, stepSize))
  {
    var v := Checkv(p.bias - stepSize);
    ChangedKeeps(p, v);
    AutoStepOffKeeps(ChangedVoltage(p, v).(bias := v));
  }

  lemma LoggedKeeps(p: PanelState, now: real, voltage: real, current: real)
    requires Consistent(p)
    ensures Keeps(p, Logged(p, now, voltage, current))
  {
  }

  lemma MeasuredKeeps(p: PanelState, now: real, voltage: real, current: real, stepSize: real)
    requires Consistent(p)
    ensures Keeps(p, Measured(p, now, voltage, current, stepSize))
  {
    var q := Logged(p, now, voltage, current);
    LoggedKeeps(p, now, voltage, current);
    if current > MAX_CURRENT {
      SteppedDownKeeps(q, stepSize);
      ExtendsTransitive(p, q, SteppedDown(q, stepSize));
    } else if q.autoStep && q.autoStepMaxCurrent.Some? && current > q.autoStepMaxCurrent.value * MICRO {
      AutoStepOffKeeps(q);
      ExtendsTransitive(p, q, AutoStepOffState(q));
    }
  }

  lemma AutoTickedKeeps(p: PanelState, dt: real, stepSize: real)
    requires Consistent(p)
    ensures Keeps(p, AutoTicked(p, dt, stepSize))
  {
    if p.autoStep && p.autoStepTimer.value + dt >= p.autoStepInterval.value {
      var fired := p.(autoStepTimer := Some(0.0));
      SteppedUpKeeps(fired, stepSize);
      SteppedDownKeeps(fired, stepSize);
    }
  }

  lemma TickedKeeps(p: PanelState, now: real, voltage: real, current: real, stepSize: real)
    requires Consistent(p)
    ensures Keeps(p, Ticked(p, now, voltage, current, stepSize))
  {
    var dt := if p.lastTime.None? then 0.0 else now - p.lastTime.value;
    var c := Clocked(p, now);
    if c.measurementTimer >= c.measurementInterval * MEAS_ACTUAL_MODIFIER {
      var c0 := c.(measurementTimer := 0.0);
      var m := Measured(c0, now, voltage, current, stepSize);
      MeasuredKeeps(c0, now, voltage, current, stepSize);
      AutoTickedKeeps(m, dt, stepSize);
      ExtendsTransitive(p, m, AutoTicked(m, dt, stepSize));
    } else {
      AutoTickedKeeps(c, dt, stepSize);
    }
  }

  // ---------------------------------------------------------------------
  // The panel
  // ---------------------------------------------------------------------

  /** mainDesigner without its widgets: the control state and the
      measurement log, updated in place by the panel's callbacks. */
  class Panel {
    var biasVoltage: real
    var autoStep: bool
    var autoStepTimer: Option<real>
    var autoStepInterval: Option<real>
    var autoStepVoltageStop: Option<real>
    var autoStepMaxCurrent: Option<real>
    var autoStepMode: Option<string>
    var lastTime: Option<real>
    var measurementInterval: real
    var measurementTimer: real
    var firstVoltageChangedIndex: nat
    var recentVoltageChangedIndex: nat
    var firstMeasurementTime: Option<real>
    /** Time, bias, current and measured voltage of each measurement. */
    var data: Columns
    /** The biases handed to the instrument's setv, oldest first. */
    var requested: seq<real>

    function State(): PanelState
      reads this
    {
      PanelState(biasVoltage, autoStep, autoStepTimer, autoStepInterval, autoStepVoltageStop,
                 autoStepMaxCurrent, autoStepMode, lastTime, measurementInterval, measurementTimer,
                 firstVoltageChangedIndex, recentVoltageChangedIndex, firstMeasurementTime,
                 data, requested)
    }

    predicate Valid()
      reads this
    {
      Consistent(State())
    }

    /** __init__ with the measurement interval its spin box holds. */
    constructor (interval: real)
      ensures State() == Initial(interval) && Valid()
    {
      biasVoltage := 0.0;
      autoStep := false;
      autoStepTimer, autoStepInterval, autoStepVoltageStop := None, None, None;
      autoStepMaxCurrent, autoStepMode, lastTime := None, None, None;
      measurementInterval, measurementTimer := interval, 0.0;
      firstVoltageChangedIndex, recentVoltageChangedIndex := 0, 0;
      firstMeasurementTime := None;
      data := Columns([], [], [], []);
      requested := [];
    }

    method ChangeVoltage(voltage: real)
      requires Valid()
      modifies this
      ensures State() == ChangedVoltage(old(State()), voltage)
      ensures 0.0 <= voltage <= MAX_BIAS ==> Valid()
    {
      Setv(voltage);
      if recentVoltageChangedIndex == 0 {
        firstVoltageChangedIndex := |data.times|;
      }
      recentVoltageChangedIndex := |data.times|;
      measurementTimer := 0.0;
    }

    /** The call of the instrument wrapper's setv, recorded. */
    method Setv(voltage: real)
      requires Valid()
      modifies this
      ensures State() == old(State()).(requested := old(requested) + [voltage])
      ensures 0.0 <= voltage <= MAX_BIAS ==> Valid()
    {
      requested := requested + [voltage];
    }

    method SetVoltage(value: real)
      requires Valid()
      modifies this
      ensures State() == VoltageSet(old(State()), value) && Valid()
    {
      VoltageSetKeeps(State(), value);
      var voltage := Checkv(value);
      ChangeVoltage(voltage);
      biasVoltage := voltage;
    }

    method StepUp(stepSize: real)
      requires Valid()
      modifies this
      ensures State() == SteppedUp(old(State()), stepSize) && Valid()
    {
      SteppedUpKeeps(State(), stepSize);
      var voltage := Checkv(biasVoltage + stepSize);
      ChangeVoltage(voltage);
      biasVoltage := voltage;
      if autoStep && autoStepMode == Some(UP) && voltage >= autoStepVoltageStop.value {
        AutoStepOff();
      }
    }

    method StepDown(stepSize: real)
      requires Valid()
      modifies this
      ensures State() == SteppedDown(old(State()), stepSize) && Valid()
    {
      SteppedDownKeeps(State(), stepSize);
      var voltage := Checkv(biasVoltage - stepSize);
      ChangeVoltage(voltage);
      biasVoltage := voltage;
      if autoStep && autoStepMode == Some(DOWN) && voltage <= autoStepVoltageStop.value {
        AutoStepOff();
      }
    }

    method AutoStepOn(interval: real, stop: real, maxCurrent: Option<real>, mode: string)
      requires Valid()
      modifies this
      ensures State() == AutoStepOnState(old(State()), interval, stop, maxCurrent, mode) && Valid()
    {
      AutoStepOnKeeps(State(), interval, stop, maxCurrent, mode);
      UpdateAutoStepInterval(interval);
      UpdateAutoStepVoltageStop(stop);
      UpdateAutoStepMaxCurrent(maxCurrent);
      UpdateAutoStepMode(mode);
      autoStepTimer, autoStep := Some(0.0), true;
    }

    method UpdateAutoStepInterval(interval: real)
      requires Valid()
      modifies this
      ensures State() == IntervalUpdated(old(State()), interval) && Valid()
    {
      IntervalUpdatedKeeps(State(), interval);
      autoStepInterval := Some(interval);
    }

    method UpdateAutoStepVoltageStop(stop: real)
      requires Valid()
      modifies this
      ensures State() == StopUpdated(old(State()), stop) && Valid()
    {
      StopUpdatedKeeps(State(), stop);
      autoStepVoltageStop := Some(stop);
    }

    /** The current limit is None when its check box is clear. */
    method UpdateAutoStepMaxCurrent(maxCurrent: Option<real>)
      requires Valid()
      modifies this
      ensures State() == MaxCurrentUpdated(old(State()), maxCurrent) && Valid()
    {
      MaxCurrentUpdatedKeeps(State(), maxCurrent);
      autoStepMaxCurrent := maxCurrent;
    }

    method UpdateAutoStepMode(mode: string)
      requires Valid()
      modifies this
      ensures State() == ModeUpdated(old(State()), mode) && Valid()
    {
      ModeUpdatedKeeps(State(), mode);
      autoStepMode := Some(mode);
    }

    method ChangeMeasurementInterval(interval: real)
      requires Valid()
      modifies this
      ensures State() == MeasurementIntervalChanged(old(State()), interval) && Valid()
    {
      MeasurementIntervalChangedKeeps(State(), interval);
      measurementInterval := interval;
    }

    method AutoStepOff()
      requires Valid()
      modifies this
      ensures State() == AutoStepOffState(old(State())) && Valid()
    {
      AutoStepOffKeeps(State());
      autoStepTimer := None;
      autoStep := false;
    }

    /** The logging half of doMeasurement. */
    method LogReading(now: real, voltage: real, current: real)
      requires Valid()
      modifies this
      ensures State() == Logged(old(State()), now, voltage, current) && Valid()
    {
      LoggedKeeps(State(), now, voltage, current);
      var t;
      if firstMeasurementTime.None? {
        t := 0.0;
        firstMeasurementTime := Some(now);
      } else {
        t := now - firstMeasurementTime.value;
      }
      data := Columns(data.times + [t], data.biases + [biasVoltage], data.currents + [current], data.voltages + [voltage]);
    }

    /** doMeasurement, with the clock and the reading as inputs. */
    method DoMeasurement(now: real, voltage: real, current: real, stepSize: real)
      requires Valid()
      modifies this
      ensures State() == Measured(old(State()), now, voltage, current, stepSize) && Valid()
    {
      MeasuredKeeps(State(), now, voltage, current, stepSize);
      LogReading(now, voltage, current);
      if current > MAX_CURRENT {
        StepDown(stepSize);
      } else if autoStep && autoStepMaxCurrent.Some? && current > autoStepMaxCurrent.value * MICRO {
        AutoStepOff();
      }
    }

    /** The auto-step branch of timer_event. */
    method AutoStepTick(dt: real, stepSize: real)
      requires Valid()
      modifies this
      ensures State() == AutoTicked(old(State()), dt, stepSize) && Valid()
    {
      AutoTickedKeeps(State(), dt, stepSize);
      if autoStep {
        autoStepTimer := Some(autoStepTimer.value + dt);
        if autoStepTimer.value >= autoStepInterval.value {
          autoStepTimer := Some(0.0);
          if autoStepMode == Some(UP) {
            StepUp(stepSize);
          } else if autoStepMode == Some(DOWN) {
            StepDown(stepSize);
          }
        }
      }
    }

    /** timer_event without the plot refresh, with the clock and the
        reading as inputs. */
    method TimerEvent(now: real, voltage: real, current: real, stepSize: real)
      requires Valid()
      modifies this
      ensures State() == Ticked(old(State()), now, voltage, current, stepSize) && Valid()
    {
      TickedKeeps(State(), now, voltage, current, stepSize);
      var dt;
      if lastTime.None? {
        lastTime := Some(now);
        dt := 0.0;
      } else {
        dt := now - lastTime.value;
        lastTime := Some(now);
      }
      measurementTimer := measurementTimer + dt;
      if measurementTimer >= measurementInterval * MEAS_ACTUAL_MODIFIER {
        measurementTimer := 0.0;
        DoMeasurement(now, voltage, current, stepSize);
      }
      AutoStepTick(dt, stepSize);
    }
  }

  // ---------------------------------------------------------------------
  // Sessions of events
  // ---------------------------------------------------------------------

  /** The events the panel reacts to, with the widget values and readings
      they carry: every callback rig() wires except the plot refresh
      interval, the step readouts (labels only) and the compliance button,
      none of which touches the state modelled here. */
  datatype Event =
    | SetVoltage(value: real)
    | StepUp(stepSize: real)
    | StepDown(stepSize: real)
    | AutoOn(interval: real, stop: real, maxCurrent: Option<real>, mode: string)
    | AutoOff
    | SetInterval(interval: real)
    | SetStop(stop: real)
    | SetMaxCurrent(maxCurrent: Option<real>)
    | SetMode(mode: string)
    | SetMeasurementInterval(interval: real)
    | Measure(now: real, voltage: real, current: real, stepSize: real)
    | Tick(now: real, voltage: real, current: real, stepSize: real)

  function Apply(p: PanelState, e: Event): (q: PanelState)
    requires Armed(p)
    ensures Armed(q)
  {
    match e
    case SetVoltage(value) => VoltageSet(p, value)
    case StepUp(step) => SteppedUp(p, step)
    case StepDown(step) => SteppedDown(p, step)
    case AutoOn(interval, stop, maxCurrent, mode) => AutoStepOnState(p, interval, stop, maxCurrent, mode)
    case AutoOff => AutoStepOffState(p)
    case SetInterval(interval) => IntervalUpdated(p, interval)
    case SetStop(stop) => StopUpdated(p, stop)
    case SetMaxCurrent(maxCurrent) => MaxCurrentUpdated(p, maxCurrent)
    case SetMode(mode) => ModeUpdated(p, mode)
    case SetMeasurementInterval(interval) => MeasurementIntervalChanged(p, interval)
    case Measure(now, v, i, step) => Measured(p, now, v, i, step)
    case Tick(now, v, i, step) => Ticked(p, now, v, i, step)
  }

  lemma ApplyKeeps(p: PanelState, e: Event)
    requires Consistent(p)
    ensures Keeps(p, Apply(p, e))
  {
    match e
    case SetVoltage(value) => VoltageSetKeeps(p, value);
    case StepUp(step) => SteppedUpKeeps(p, step);
    case StepDown(step) => SteppedDownKeeps(p, step);
    case AutoOn(interval, stop, maxCurrent, mode) => AutoStepOnKeeps(p, interval, stop, maxCurrent, mode);
    case AutoOff => AutoStepOffKeeps(p);
    case SetInterval(interval) => IntervalUpdatedKeeps(p, interval);
    case SetStop(stop) => StopUpdatedKeeps(p, stop);
    case SetMaxCurrent(maxCurrent) => MaxCurrentUpdatedKeeps(p, maxCurrent);
    case SetMode(mode) => ModeUpdatedKeeps(p, mode);
    case SetMeasurementInterval(interval) => MeasurementIntervalChangedKeeps(p, interval);
    case Measure(now, v, i, step) => MeasuredKeeps(p, now, v, i, step);
    case Tick(now, v, i, step) => TickedKeeps(p, now, v, i, step);
  }

  /** The panel after a sequence of events, oldest first. */
  function Run(p: PanelState, events: seq<Event>): (q: PanelState)
    requires Armed(p)
    ensures Armed(q)
    decreases |events|
  {
    if events == [] then p else Run(Apply(p, events[0]), events[1..])
  }

  /** Over any session from a consistent panel: the panel stays
      consistent, the measurement log and the requested biases only grow
      at their ends, and the change indices keep their order. */
  lemma {:induction false} RunKeeps(p: PanelState, events: seq<Event>)
    requires Consistent(p)
    ensures Keeps(p, Run(p, events))
    decreases |events|
  {
    if events != [] {
      var p1 := Apply(p, events[0]);
      ApplyKeeps(p, events[0]);
      RunKeeps(p1, events[1..]);
      ExtendsTransitive(p, p1, Run(p1, events[1..]));
    }
  }
}
