/** What the IV-curve routines do, stated on values: the numpy.arange
    voltage grid, the commands and replies of one set-up step and of a whole
    sweep, and the readings a sweep keeps. */
module IvSpec {
  import opened Results
  import opened Keithley

  /** The SCPI commands of a sweep step that Keithley builds from parts. */
  const SENSE_OFF_VOLT := ":SENS:FUNC:OFF 'VOLT'"
  const SENSE_OFF_RES := ":SENS:FUNC:OFF 'RES'"
  const SOURCE_VOLT := ":SOUR:FUNC VOLT"
  const FORMAT_CURR := ":FORM:ELEM CURR"

  /** Smallest integer not below x. */
  function Ceil(x: real): (c: int)
    ensures x <= c as real < x + 1.0
  {
    -((-x).Floor)
  }

  /** Number of points of np.arange(start, stop, step). */
  function ArangeCount(start: real, stop: real, step: real): nat
    requires step != 0.0
  {
    var c := Ceil((stop - start) / step);
    if c < 0 then 0 else c
  }

  /** np.arange(start, stop, step) over exact reals. */
  function Arange(start: real, stop: real, step: real): (r: seq<real>)
    requires step != 0.0
  {
    seq(ArangeCount(start, stop, step), i => start + i as real * step)
  }

  lemma StepBelow(d: real, step: real, i: int)
    requires step > 0.0 && 0 <= i < Ceil(d / step)
    ensures i as real * step < d
  {
    assert (i as real) <= Ceil(d / step) as real - 1.0;
    assert (i as real) < d / step;
    assert i as real * step < (d / step) * step;
  }

  lemma StepAbove(d: real, step: real, i: int)
    requires step < 0.0 && 0 <= i < Ceil(d / step)
    ensures i as real * step > d
  {
    assert (i as real) < d / step;
    assert i as real * step > (d / step) * step;
  }

  /** An increasing grid starts at `start`, climbs by `step`, stays strictly
      below `stop`, and cannot be extended without reaching `stop`. */
  lemma {:induction false} ArangeUp(start: real, stop: real, step: real)
    requires step > 0.0
    ensures forall i :: 0 <= i < |Arange(start, stop, step)| ==>
              Arange(start, stop, step)[i] == start + i as real * step &&
              Arange(start, stop, step)[i] < stop
    ensures start + |Arange(start, stop, step)| as real * step >= stop
  {
    var d := stop - start;
    forall i | 0 <= i < |Arange(start, stop, step)|
      ensures Arange(start, stop, step)[i] < stop
    {
      StepBelow(d, step, i);
    }
    var n := |Arange(start, stop, step)|;
    if Ceil(d / step) >= 0 {
      assert n as real >= d / step;
      assert n as real * step >= (d / step) * step;
    } else {
      assert d / step < 0.0;
    }
  }

  /** A decreasing grid mirrors the increasing one. */
  lemma {:induction false} ArangeDown(start: real, stop: real, step: real)
    requires step < 0.0
    ensures forall i :: 0 <= i < |Arange(start, stop, step)| ==>
              Arange(start, stop, step)[i] == start + i as real * step &&
              Arange(start, stop, step)[i] > stop
    ensures start + |Arange(start, stop, step)| as real * step <= stop
  {
    var d := stop - start;
    forall i | 0 <= i < |Arange(start, stop, step)|
      ensures Arange(start, stop, step)[i] > stop
    {
      StepAbove(d, step, i);
    }
    var n := |Arange(start, stop, step)|;
    if Ceil(d / step) >= 0 {
      assert n as real >= d / step;
      assert n as real * step <= (d / step) * step;
    } else {
      assert d / step < 0.0;
    }
  }

  /** A grid cut short after its n-th point is the grid that runs from the
      same start to that point inclusive: what ramp_volt_down recomputes from
      the last point of the up-sweep. */
  lemma ArangeRetrace(start: real, stop: real, step: real, n: nat)
    requires step != 0.0 && 0 < n <= |Arange(start, stop, step)|
    ensures Arange(start, Arange(start, stop, step)[n - 1] + step, step) == Arange(start, stop, step)[..n]
  {
    var last := Arange(start, stop, step)[n - 1];
    assert last + step - start == n as real * step;
    assert (last + step - start) / step == n as real;
    assert Ceil(n as real) == n;
  }

  /** The points of one sweep and the raw replies read at them. */
  datatype Sweep = Sweep(points: seq<real>, readings: seq<Reply>)

  /** vPoints[::-1]. */
  function Reversed(xs: seq<real>): (r: seq<real>)
    ensures |r| == |xs|
    ensures forall i :: 0 <= i < |xs| ==> r[i] == xs[|xs| - 1 - i]
  {
    seq(|xs|, i requires 0 <= i < |xs| => xs[|xs| - 1 - i])
  }

  /** The points of ramp_volt_down(startV, stopV, step):
      np.arange(stopV, startV + step, step)[::-1]. */
  function DownGrid(startV: real, stopV: real, step: real): seq<real>
    requires step != 0.0
  {
    Reversed(Arange(stopV, startV + step, step))
  }

  /** The way back retraces the way up: started at the last point an
      up-sweep reached and ending at the up-sweep's start, the down-sweep's
      grid is the up-sweep's points in reverse order. */
  lemma Retrace(up: Sweep, startV: real, stopV: real, step: real, maxI: real)
    requires step != 0.0 && UpSweep(up, startV, stopV, step, maxI) && up.points != []
    ensures DownGrid(up.points[|up.points| - 1], startV, step) == Reversed(up.points)
    ensures DownGrid(up.points[|up.points| - 1], startV, step)[0] == up.points[|up.points| - 1]
    ensures DownGrid(up.points[|up.points| - 1], startV, step)[|up.points| - 1] == startV
  {
    ArangeRetrace(startV, stopV + step, step, |up.points|);
  }

  /** The mode after a successful set_V_out_I_sense: sourcing voltage, the
      output on, resistance sensing off; Vsense and Isense as they were (the
      VOLT sense-off never touches Vsense). */
  function AfterSetup(m: Mode): Mode
  {
    m.(vOut := true, iOut := m.vOut && m.iOut, rSense := false, outpOn := true)
  }

  /** The commands set_V_out_I_sense sends from mode `m` when it succeeds:
      the two sense-off commands, then the voltage set-up. */
  function SetupCommands(m: Mode, v: real, protI: Option<real>, rangeI: Option<RangeArg>): seq<Command>
  {
    [Scpi(SENSE_OFF_VOLT), Scpi(SENSE_OFF_RES)] + SourceCommands(m, v, protI, rangeI)
  }

  /** The voltage set-up: source_mode only when Vout was false, the
      compliance and range when given, the level, and output_on only when
      outpOn was false. */
  function SourceCommands(m: Mode, v: real, protI: Option<real>, rangeI: Option<RangeArg>): seq<Command>
  {
    ModeCommands(m.vOut) + CurrentCommands(protI, rangeI) + LevelCommands(m.outpOn, v)
  }

  /** The voltage set-up appended to a log piece by piece, as the session
      sends it. */
  lemma SourceStages(log: seq<Command>, m: Mode, v: real, protI: Option<real>, rangeI: Option<RangeArg>)
    ensures ((log + ModeCommands(m.vOut)) + CurrentCommands(protI, rangeI)) + LevelCommands(m.outpOn, v)
            == log + SourceCommands(m, v, protI, rangeI)
  {
    var a, b, c := ModeCommands(m.vOut), CurrentCommands(protI, rangeI), LevelCommands(m.outpOn, v);
    assert ((log + a) + b) + c == log + (a + b + c);
  }

  /** source_mode('VOLT'), sent only when Vout is false. */
  function ModeCommands(vOut: bool): seq<Command>
  {
    if vOut then [] else [Scpi(SOURCE_VOLT)]
  }

  /** The compliance and the current range, each only when given. */
  function CurrentCommands(protI: Option<real>, rangeI: Option<RangeArg>): seq<Command>
  {
    (if protI.Some? then [ScpiArg(CURR_PROT, protI.value)] else [])
    + (if rangeI.Some? then RangeCommands(rangeI.value) else [])
  }

  /** The level, then output_on only when the output was off. */
  function LevelCommands(outpOn: bool, v: real): seq<Command>
  {
    [ScpiArg(VOLT_LEVEL, v)] + (if outpOn then [] else [Scpi(OUTPUT_ON)])
  }

  /** Replies read by set_V_out_I_sense (the range queries around a fixed range). */
  function SetupReads(rangeI: Option<RangeArg>): nat
  {
    if rangeI.Some? then RangeReads(rangeI.value) else 0
  }

  /** The current range a sweep requests at point `v`: the caller's at the
      point equal to startV, 'AUTO' everywhere else. */
  function RangeAt(v: real, startV: real, rangeI: Option<RangeArg>): Option<RangeArg>
  {
    if v == startV then rangeI else Some(Auto)
  }

  /** The mode before the k-th step of a sweep that started in mode m0. */
  function ModeAt(m0: Mode, k: nat): Mode
  {
    if k == 0 then m0 else AfterSetup(m0)
  }

  /** The commands one step of a sweep sends: the set-up, then the trigger. */
  function StepLog(m: Mode, v: real, maxI: real, rng: Option<RangeArg>): seq<Command>
  {
    SetupCommands(m, v, Some(maxI), rng) + [Scpi(READ)]
  }

  /** The state after a successful set_V_out_I_sense(v, protI, rangeI)
      from the state `o`. */
  function Configured(o: Observed, v: real, protI: Option<real>, rangeI: Option<RangeArg>): Observed
    requires SetupReads(rangeI) <= |o.replies|
  {
    Observed(AfterSetup(o.mode), o.log + SetupCommands(o.mode, v, protI, rangeI), o.replies[SetupReads(rangeI)..])
  }

  /** Configured, taken in the two stages set_V_out_I_sense goes through:
      the sense-off commands (which only clear Rsense), then the voltage
      set-up from the mode they leave. */
  lemma ConfiguredStages(o: Observed, v: real, protI: Option<real>, rangeI: Option<RangeArg>)
    requires SetupReads(rangeI) <= |o.replies|
    ensures var m := o.mode.(rSense := false);
            Configured(o, v, protI, rangeI)
            == Observed(m.(vOut := true, iOut := m.vOut && m.iOut, outpOn := true),
                        (o.log + [Scpi(SENSE_OFF_VOLT), Scpi(SENSE_OFF_RES)]) + SourceCommands(m, v, protI, rangeI),
                        o.replies[SetupReads(rangeI)..])
  {
    var m := o.mode.(rSense := false);
    assert SourceCommands(m, v, protI, rangeI) == SourceCommands(o.mode, v, protI, rangeI);
    assert (o.log + [Scpi(SENSE_OFF_VOLT), Scpi(SENSE_OFF_RES)]) + SourceCommands(m, v, protI, rangeI)
        == o.log + SetupCommands(o.mode, v, protI, rangeI);
  }

  /** The state after one successful sweep step at `v` from the state `o`:
      set up, triggered, and its reading read. */
  function Stepped(o: Observed, v: real, maxI: real, rng: Option<RangeArg>): Observed
    requires SetupReads(rng) < |o.replies|
  {
    Observed(AfterSetup(o.mode), o.log + StepLog(o.mode, v, maxI, rng), o.replies[SetupReads(rng) + 1..])
  }

  /** The commands a sweep sends for the points `pts`, in order. */
  function RampLog(m0: Mode, startV: real, pts: seq<real>, maxI: real, rangeI: Option<RangeArg>): seq<Command>
  {
    if pts == [] then []
    else
      var n := |pts| - 1;
      RampLog(m0, startV, pts[..n], maxI, rangeI) + StepLog(ModeAt(m0, n), pts[n], maxI, RangeAt(pts[n], startV, rangeI))
  }

  /** The replies a sweep reads for the points `pts`. */
  function RampReads(startV: real, pts: seq<real>, rangeI: Option<RangeArg>): nat
  {
    if pts == [] then 0
    else
      var n := |pts| - 1;
      RampReads(startV, pts[..n], rangeI) + SetupReads(RangeAt(pts[n], startV, rangeI)) + 1
  }

  /** The voltage level one command sets, if it sets one. */
  function LevelOf(c: Command): seq<real>
  {
    if c.ScpiArg? && c.head == VOLT_LEVEL then [c.arg] else []
  }

  /** The voltage levels a command log sets, in order. */
  function Levels(log: seq<Command>): seq<real>
  {
    if log == [] then [] else LevelOf(log[0]) + Levels(log[1..])
  }

  lemma {:induction false} LevelsAppend(a: seq<Command>, b: seq<Command>)
    ensures Levels(a + b) == Levels(a) + Levels(b)
  {
    if a == [] {
      assert a + b == b;
    } else {
      assert (a + b)[1..] == a[1..] + b;
      LevelsAppend(a[1..], b);
    }
  }

  lemma {:induction false} LevelsNone(xs: seq<Command>)
    requires forall i :: 0 <= i < |xs| ==> LevelOf(xs[i]) == []
    ensures Levels(xs) == []
  {
    if xs != [] {
      LevelsNone(xs[1..]);
    }
  }

  lemma LevelsSingle(c: Command)
    ensures Levels([c]) == LevelOf(c)
  {
    assert [c][1..] == [];
  }

  /** Neither form of the current-range set-up sets a voltage. */
  lemma RangeLevels(a: RangeArg)
    ensures Levels(RangeCommands(a)) == []
  {
    match a
    case Auto =>
      LevelsSingle(Scpi(CURR_RANGE_AUTO));
    case Fixed(x) =>
      var q := Scpi(CURR_RANGE_QUERY);
      assert RangeCommands(a) == [q] + [ScpiArg(CURR_RANGE, x)] + [q];
      LevelsSingle(q);
      LevelsSingle(ScpiArg(CURR_RANGE, x));
      LevelsAppend([q], [ScpiArg(CURR_RANGE, x)]);
      LevelsAppend([q] + [ScpiArg(CURR_RANGE, x)], [q]);
  }

  /** The voltage set-up sets exactly one voltage, its own. */
  lemma SourceLevels(m: Mode, v: real, maxI: real, rng: Option<RangeArg>)
    ensures Levels(SourceCommands(m, v, Some(maxI), rng)) == [v]
  {
    var a := ModeCommands(m.vOut);
    var b := [ScpiArg(CURR_PROT, maxI)];
    var c: seq<Command> := if rng.Some? then RangeCommands(rng.value) else [];
    var e := [ScpiArg(VOLT_LEVEL, v)];
    var d: seq<Command> := if m.outpOn then [] else [Scpi(OUTPUT_ON)];
    assert Levels(a) == [] by {
      if !m.vOut {
        LevelsSingle(Scpi(SOURCE_VOLT));
      }
    }
    assert Levels(b + c) == [] by {
      if rng.Some? {
        RangeLevels(rng.value);
      }
      LevelsSingle(b[0]);
      LevelsAppend(b, c);
    }
    assert Levels(e + d) == [v] by {
      if !m.outpOn {
        LevelsSingle(Scpi(OUTPUT_ON));
      }
      LevelsSingle(e[0]);
      LevelsAppend(e, d);
    }
    LevelsAppend(a, b + c);
    LevelsAppend(a + (b + c), e + d);
  }

  /** One sweep step sets exactly one voltage, its own. */
  lemma SetupLevels(m: Mode, v: real, maxI: real, rng: Option<RangeArg>)
    ensures Levels(StepLog(m, v, maxI, rng)) == [v]
  {
    var h := [Scpi(SENSE_OFF_VOLT), Scpi(SENSE_OFF_RES)];
    var src := SourceCommands(m, v, Some(maxI), rng);
    assert Levels(h) == [] by {
      assert h == [h[0]] + [h[1]];
      LevelsSingle(h[0]);
      LevelsSingle(h[1]);
      LevelsAppend([h[0]], [h[1]]);
    }
    SourceLevels(m, v, maxI, rng);
    LevelsSingle(Scpi(READ));
    LevelsAppend(h, src);
    LevelsAppend(h + src, [Scpi(READ)]);
  }

  /** A sweep sets exactly the voltages it records, once each and in order:
      after an early stop no further voltage is commanded. */
  lemma {:induction false} RampLevels(m0: Mode, startV: real, pts: seq<real>, maxI: real, rangeI: Option<RangeArg>)
    ensures Levels(RampLog(m0, startV, pts, maxI, rangeI)) == pts
  {
    if pts != [] {
      var n := |pts| - 1;
      RampLevels(m0, startV, pts[..n], maxI, rangeI);
      var step := StepLog(ModeAt(m0, n), pts[n], maxI, RangeAt(pts[n], startV, rangeI));
      LevelsAppend(RampLog(m0, startV, pts[..n], maxI, rangeI), step);
      SetupLevels(ModeAt(m0, n), pts[n], maxI, RangeAt(pts[n], startV, rangeI));
      assert pts == pts[..n] + [pts[n]];
    }
  }

  /** On an increasing grid only the first point equals startV, so the
      caller's range is used there and 'AUTO' at every later point. */
  lemma UpGridRanges(startV: real, stopV: real, step: real, rangeI: Option<RangeArg>, j: nat)
    requires step != 0.0 && j < |Arange(startV, stopV + step, step)|
    ensures RangeAt(Arange(startV, stopV + step, step)[j], startV, rangeI) == if j == 0 then rangeI else Some(Auto)
  {
    if j != 0 {
      assert j as real * step != 0.0;
    }
  }

  /** What ramp_volt_up promises about its result: the points are the first
      points of the grid startV, startV + step, ... (all below stopV + step),
      one reading per point, every reading a number, every reading but the
      last at or below 95 % of maxI (a signed comparison), and a sweep that
      stops before the end of the grid stops on a reading above it. */
  predicate UpSweep(sw: Sweep, startV: real, stopV: real, step: real, maxI: real)
    requires step != 0.0
  {
    StopsWithin(Arange(startV, stopV + step, step), sw, maxI * 0.95)
  }

  /** A sweep along a prefix of `grid`, one numeric reading per point,
      every reading but the last at or below `limit`, and stopped short of
      the end of the grid only by a last reading above `limit`. */
  predicate StopsWithin(grid: seq<real>, sw: Sweep, limit: real)
  {
    var n := |sw.points|;
    && n <= |grid| && sw.points == grid[..n]
    && |sw.readings| == n
    && Numeric(sw.readings)
    && BelowUntilLast(sw.readings, limit)
    && (n < |grid| ==> n > 0 && sw.readings[n - 1].numbers[0] > limit)
  }

  /** The sweep `sw` has measured exactly the first `i` points of `grid`. */
  predicate Along(grid: seq<real>, i: nat, sw: Sweep)
  {
    i <= |grid| && sw.points == grid[..i] && |sw.readings| == i
  }

  /** Part-way through a sweep along `grid`: the first `i` points swept,
      and `stop` set exactly when the last reading is above `limit`. */
  predicate SweptTo(grid: seq<real>, i: nat, sw: Sweep, limit: real, stop: bool)
  {
    && i <= |grid| && sw.points == grid[..i]
    && |sw.readings| == i
    && Numeric(sw.readings)
    && BelowUntilLast(sw.readings, limit)
    && (stop <==> i > 0 && sw.readings[i - 1].numbers[0] > limit)
  }

  /** Sweeping one more point keeps SweptTo. */
  lemma SweptStep(grid: seq<real>, i: nat, sw: Sweep, limit: real, rd: Reply)
    requires SweptTo(grid, i, sw, limit, false) && i < |grid| && |rd.numbers| == 1
    ensures SweptTo(grid, i + 1, Sweep(sw.points + [grid[i]], sw.readings + [rd]), limit, rd.numbers[0] > limit)
  {
    BelowExtend(sw.readings, rd, limit);
    assert grid[..i + 1] == grid[..i] + [grid[i]];
  }

  /** A sweep that ran off the end of the grid or stopped stops within it. */
  lemma SweptDone(grid: seq<real>, i: nat, sw: Sweep, limit: real, stop: bool)
    requires SweptTo(grid, i, sw, limit, stop) && (i == |grid| || stop)
    ensures StopsWithin(grid, sw, limit)
  {
  }

  /** Every reply holds exactly one number (float() accepts it). */
  predicate Numeric(rds: seq<Reply>)
  {
    forall j :: 0 <= j < |rds| ==> |rds[j].numbers| == 1
  }

  /** Every reading but the last is at or below `limit`. */
  predicate BelowUntilLast(rds: seq<Reply>, limit: real)
    requires Numeric(rds)
  {
    forall j :: 0 <= j < |rds| - 1 ==> rds[j].numbers[0] <= limit
  }

  /** A sweep that carries on past a reading at or below the limit keeps
      every reading but its last below the limit. */
  lemma BelowExtend(rds: seq<Reply>, rd: Reply, limit: real)
    requires Numeric(rds) && BelowUntilLast(rds, limit) && |rd.numbers| == 1
    requires rds != [] ==> rds[|rds| - 1].numbers[0] <= limit
    ensures Numeric(rds + [rd]) && BelowUntilLast(rds + [rd], limit)
  {
    var rds' := rds + [rd];
    forall j | 0 <= j < |rds'|
      ensures |rds'[j].numbers| == 1
    {
      if j < |rds| {
        assert rds'[j] == rds[j];
      }
    }
    forall j | 0 <= j < |rds'| - 1
      ensures rds'[j].numbers[0] <= limit
    {
      assert rds'[j] == rds[j];
    }
  }

  /** The replies of `script` a sweep over `pts` keeps as its readings: for
      each point, the reply read right after its set-up replies. */
  function Picks(script: seq<Reply>, startV: real, pts: seq<real>, rangeI: Option<RangeArg>): (rds: seq<Reply>)
    requires RampReads(startV, pts, rangeI) <= |script|
    ensures |rds| == |pts|
  {
    if pts == [] then []
    else
      var n := |pts| - 1;
      Picks(script, startV, pts[..n], rangeI) + [script[RampReads(startV, pts, rangeI) - 1]]
  }

  /** Each reading is the reply read last by the sweep up to its point. */
  lemma {:induction false} PicksAt(script: seq<Reply>, startV: real, pts: seq<real>, rangeI: Option<RangeArg>, j: nat)
    requires RampReads(startV, pts, rangeI) <= |script| && j < |pts|
    ensures RampReads(startV, pts[..j + 1], rangeI) <= RampReads(startV, pts, rangeI)
    ensures Picks(script, startV, pts, rangeI)[j] == script[RampReads(startV, pts[..j + 1], rangeI) - 1]
  {
    var n := |pts| - 1;
    if j == n {
      assert pts[..j + 1] == pts;
    } else {
      PicksAt(script, startV, pts[..n], rangeI, j);
      assert pts[..n][..j + 1] == pts[..j + 1];
    }
  }

  /** One more point extends a sweep's commands by one step and its reads by
      that step's reads. */
  lemma RampExtend(m0: Mode, startV: real, pts: seq<real>, v: real, maxI: real, rangeI: Option<RangeArg>)
    ensures RampLog(m0, startV, pts + [v], maxI, rangeI)
         == RampLog(m0, startV, pts, maxI, rangeI) + StepLog(ModeAt(m0, |pts|), v, maxI, RangeAt(v, startV, rangeI))
    ensures RampReads(startV, pts + [v], rangeI) == RampReads(startV, pts, rangeI) + SetupReads(RangeAt(v, startV, rangeI)) + 1
    ensures ModeAt(m0, |pts| + 1) == AfterSetup(ModeAt(m0, |pts|))
  {
    assert (pts + [v])[..|pts|] == pts;
  }

  /** What a sweep that began in the state `start` should have left after
      the points `pts`: the mode of a set-up after any step, every step's
      commands logged, and every step's replies read. */
  function Expected(start: Observed, startV: real, maxI: real, rangeI: Option<RangeArg>, pts: seq<real>): Observed
    requires RampReads(startV, pts, rangeI) <= |start.replies|
  {
    Observed(ModeAt(start.mode, |pts|), start.log + RampLog(start.mode, startV, pts, maxI, rangeI),
             start.replies[RampReads(startV, pts, rangeI)..])
  }

  /** The state `now` part-way through a sweep that began in the state
      `start`, after the points `pts` with readings `rds`. */
  predicate TraceOf(start: Observed, startV: real, maxI: real, rangeI: Option<RangeArg>,
                    pts: seq<real>, rds: seq<Reply>, now: Observed)
  {
    && RampReads(startV, pts, rangeI) <= |start.replies|
    && rds == Picks(start.replies, startV, pts, rangeI)
    && now == Expected(start, startV, maxI, rangeI, pts)
  }

  /** The meter's state part-way through a sweep that began in the state
      `start`, after the points `pts` with readings `rds`. */
  ghost predicate Traced(meter: SourceMeter, start: Observed, startV: real, maxI: real,
                         rangeI: Option<RangeArg>, pts: seq<real>, rds: seq<Reply>)
    reads meter
  {
    meter.isOpen && TraceOf(start, startV, maxI, rangeI, pts, rds, meter.Observe())
  }

  /** The meter after output_off in the state o. */
  function OutputOffIn(o: Observed): Observed
  {
    o.(mode := o.mode.(outpOn := false), log := o.log + [Scpi(OUTPUT_OFF)])
  }

  /** The state `final` after a sweep that began in the state `start`, over
      the points `pts` with readings `rds`, and then output_off. */
  predicate SweptThenOff(start: Observed, startV: real, maxI: real, rangeI: Option<RangeArg>,
                         pts: seq<real>, rds: seq<Reply>, final: Observed)
  {
    && RampReads(startV, pts, rangeI) <= |start.replies|
    && rds == Picks(start.replies, startV, pts, rangeI)
    && final == OutputOffIn(Expected(start, startV, maxI, rangeI, pts))
  }

  /** A whole I-V curve from the state o0: *RST (the facets take their
      defaults) and the CURR format, the up-sweep from startV, the CURR
      format again, the down-sweep from the last point reached, and
      output_off; `final` is the state that leaves. */
  predicate CurveOf(o0: Observed, startV: real, maxI: real, rangeI: Option<RangeArg>,
                    up: Sweep, down: Sweep, final: Observed)
  {
    var s0 := o0.(mode := Defaults, log := o0.log + [Scpi("*RST"), Scpi(FORMAT_CURR)]);
    && up.points != []
    && RampReads(startV, up.points, rangeI) <= |s0.replies|
    && up.readings == Picks(s0.replies, startV, up.points, rangeI)
    && var mid := Expected(s0, startV, maxI, rangeI, up.points);
       SweptThenOff(mid.(log := mid.log + [Scpi(FORMAT_CURR)]), up.points[|up.points| - 1], maxI, rangeI,
                    down.points, down.readings, final)
  }

  /** One measured step extends a sweep's log by that step's commands. */
  lemma LogStep(m0: Mode, log0: seq<Command>, startV: real, maxI: real, rangeI: Option<RangeArg>,
                pts: seq<real>, log: seq<Command>, v: real)
    requires log == log0 + RampLog(m0, startV, pts, maxI, rangeI)
    ensures log + StepLog(ModeAt(m0, |pts|), v, maxI, RangeAt(v, startV, rangeI))
         == log0 + RampLog(m0, startV, pts + [v], maxI, rangeI)
  {
    RampExtend(m0, startV, pts, v, maxI, rangeI);
  }

  /** One more point reads that point's set-up replies and its reading. */
  lemma ReadsStep(startV: real, rangeI: Option<RangeArg>, pts: seq<real>, v: real)
    ensures RampReads(startV, pts + [v], rangeI) == RampReads(startV, pts, rangeI) + SetupReads(RangeAt(v, startV, rangeI)) + 1
  {
    assert (pts + [v])[..|pts|] == pts;
  }

  /** One more point keeps the reply read last as its reading. */
  lemma PicksStep(script: seq<Reply>, startV: real, rangeI: Option<RangeArg>, pts: seq<real>, v: real)
    requires RampReads(startV, pts + [v], rangeI) <= |script|
    ensures RampReads(startV, pts, rangeI) <= |script|
    ensures Picks(script, startV, pts + [v], rangeI)
         == Picks(script, startV, pts, rangeI) + [script[RampReads(startV, pts + [v], rangeI) - 1]]
  {
    ReadsStep(startV, rangeI, pts, v);
    assert (pts + [v])[..|pts|] == pts;
  }

  /** One measured step reads its set-up replies and then its reading, the
      next reply of the script. */
  lemma ReadStep(script: seq<Reply>, startV: real, rangeI: Option<RangeArg>, pts: seq<real>, rds: seq<Reply>,
                 replies: seq<Reply>, v: real, rd: Reply)
    requires RampReads(startV, pts, rangeI) <= |script| && rds == Picks(script, startV, pts, rangeI)
    requires replies == script[RampReads(startV, pts, rangeI)..]
    requires |replies| > SetupReads(RangeAt(v, startV, rangeI)) && rd == replies[SetupReads(RangeAt(v, startV, rangeI))]
    ensures RampReads(startV, pts + [v], rangeI) <= |script| && rds + [rd] == Picks(script, startV, pts + [v], rangeI)
    ensures replies[SetupReads(RangeAt(v, startV, rangeI)) + 1..] == script[RampReads(startV, pts + [v], rangeI)..]
  {
    ReadsStep(startV, rangeI, pts, v);
    PicksStep(script, startV, rangeI, pts, v);
  }

  /** One measured step extends a traced sweep by its point and reading. */
  lemma TraceStep(start: Observed, startV: real, maxI: real, rangeI: Option<RangeArg>,
                  pts: seq<real>, rds: seq<Reply>, now: Observed, v: real, rd: Reply)
    requires TraceOf(start, startV, maxI, rangeI, pts, rds, now)
    requires |now.replies| > SetupReads(RangeAt(v, startV, rangeI)) && rd == now.replies[SetupReads(RangeAt(v, startV, rangeI))]
    ensures TraceOf(start, startV, maxI, rangeI, pts + [v], rds + [rd], Stepped(now, v, maxI, RangeAt(v, startV, rangeI)))
  {
    LogStep(start.mode, start.log, startV, maxI, rangeI, pts, now.log, v);
    ReadStep(start.replies, startV, rangeI, pts, rds, now.replies, v, rd);
  }
}
