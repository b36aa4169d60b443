# Silicon-sensor IV test stand: a Dafny model of its control core

The test stand drives a Keithley 2410 source-meter to measure the leakage
current of a sensor module against its bias voltage. This project models
the sequential logic of that software and proves properties about it:

* **The source-meter session** (`keithley.dfy`, module `Keithley`, class
  `SourceMeter`). It models the seven boolean mode facets (`Vout`, `Iout`,
  `Vsense`, `Isense`, `Rsense`, `remoteOn`, `outpOn`) and the connection
  flag. Each command is guarded by the facet it needs.
  * A public write forgets every facet.
  * A private write touches only the facets of its own command.
  * The transport is replaced by a log of the commands sent (`log`) and a
    script of the replies the instrument gives (`replies`).
  * Two quirks of the code are kept as written:
    * `sense_on`/`sense_off` compare against the misspelt `'VOlT'`, so they
      never update `Vsense`;
    * `set_V_out_I_sense` calls the non-existent `sens_on`, so it raises
      when `Isense` is false.
* **The IV-curve routines** (`ivspec.dfy`, module `IvSpec`, for what they
  do stated on values; `ivcurve.dfy`, module `IvCurve`, class
  `IvCurveMaker`, for the routines).
  * The up-sweep walks the `np.arange` grid. It stops right after the first
    reading above 95 % of the current limit. The comparison is signed, as in
    the code.
  * The down-sweep has no stop.
  * `makeIVCurve` resets, sweeps up, sweeps back down from where the
    up-sweep ended, and switches the output off.
* **Bin segmentation and fit pre-processing** of the analysis script
  (`bins.dfy`, module `Bins`; `fitting.dfy`, module `Fitting`).
  * `make_bins` cuts the log into maximal runs of equal voltage. It is
    proved against a value-level specification (`Runs`, `File`, `BinsOf`).
  * `save_bins` keeps the first bin of each whole-volt key. The saved bins
    are proved to be exactly those that no earlier bin shares a key with,
    in input order (`FirstWinsSelects`).
  * The fit helpers: `proc_suffix`, `is_ordered`, the thirds, the guards and
    halves of the linear fit, and the `searchsorted` time window.
* **The operator panel** (`teststand.dfy`, module `TestStand`).
  * The bias clamp `checkv`.
  * The `ivServer` wrapper (class `IvServer`), which caches the source
    range and ramps the bias down in 5 V steps on close.
  * The control rules of the main window (class `Panel`). Each callback is
    proved equal to a transition function on `PanelState`. Every transition
    keeps the panel consistent, and so does any session of callbacks
    (`RunKeeps`):
    * the four data columns stay equally long and only grow at their ends;
    * the change indices stay inside the log;
    * the bias stays within [0, 1100] V.

Where the code and its prose description disagree, the model follows the
code. `make_bins` compares voltages exactly rather than after rounding, so
two samples whose voltages differ only slightly start separate runs.

## Model

| member | source | states |
|---|---|---|
| Keithley.SourceAliasTargets | Keithley2410.py:25-30 | every source-mode alias stands for VOLT or CURR |
| Keithley.SenseAliasTargets | Keithley2410.py:229-249 | every sense alias stands for VOLT, CURR or RES, and none equals the misspelt `'VOlT'` the facet update compares against |
| Keithley.ParseNumber | Keithley2410.py:156-159 | `float(read())` succeeds exactly when the reply holds one number, and yields that number; otherwise it fails with NotANumber |
| Keithley.SplitOnCommas | Keithley2410.py:256-261 | the partition loop returns one more piece than the reply has commas; no piece contains a comma; joining the pieces with commas gives back the reply |
| Keithley.SourceMeter.constructor | Keithley2410.py:13-41 | a new session is open, every facet is false, nothing has been sent |
| Keithley.SourceMeter.Close | Keithley2410.py:46-52 | succeeds iff the connection was open, fails with AlreadyClosed otherwise; afterwards the connection is closed |
| Keithley.SourceMeter.Open | Keithley2410.py:53-63 | succeeds iff the connection was closed, fails with AlreadyOpen otherwise; afterwards the connection is open |
| Keithley.SourceMeter.RstFlags | Keithley2410.py:66-79 | source, remote and output facets are false; the three sense facets are all true with `default` and all false without it |
| Keithley.SourceMeter.Send | Keithley2410.py:110-114 | the private write appends exactly its command when open, and fails with ConnectionClosed, sending nothing, when closed |
| Keithley.SourceMeter.Write | Keithley2410.py:87-92 | a successful public write sends its text and clears all seven facets; on a closed connection it fails and nothing changes |
| Keithley.SourceMeter.WriteRaw | Keithley2410.py:95-100 | as Write, for an unterminated raw write |
| Keithley.SourceMeter.Read | Keithley2410.py:103-107 | the next scripted reply is consumed and returned when open; fails with ConnectionClosed when closed and with NoReply when none is left, consuming nothing |
| Keithley.SourceMeter.Reset | Keithley2410.py:121-124 | sends `*RST`; afterwards Vout, Iout, remoteOn and outpOn are false and the three sense facets true |
| Keithley.SourceMeter.RemoteOn | Keithley2410.py:125-127 | sends the remote-sense command and sets remoteOn; no other facet changes |
| Keithley.SourceMeter.RemoteOff | Keithley2410.py:128-130 | sends the remote-sense-off command and clears remoteOn; no other facet changes |
| Keithley.SourceMeter.QuerySourceMode | Keithley2410.py:139-142 | sends the mode query and returns the next reply; on a closed session it sends and consumes nothing (ConnectionClosed); with no reply left it fails with NoReply after sending |
| Keithley.SourceMeter.SetSourceMode | Keithley2410.py:139-154 | a known alias sends `:SOUR:FUNC` with its target and leaves exactly one of Vout/Iout true; no other facet changes; an unknown alias fails with InvalidSourceMode, sending nothing and changing nothing |
| Keithley.SourceMeter.SetSourceVoltageRange | Keithley2410.py:156-164 | sends the range iff Vout is true (and the connection is open); otherwise fails with NotVoltageSource and sends nothing; no facet is touched |
| Keithley.SourceMeter.SetSourceCurrentRange | Keithley2410.py:166-175 | sends the range iff Iout is true; otherwise fails with NotCurrentSource and sends nothing |
| Keithley.SourceMeter.SetSourceVoltageLevel | Keithley2410.py:177-185 | sends the level iff Vout is true; otherwise fails with NotVoltageSource and sends nothing |
| Keithley.SourceMeter.SetSourceCurrentLevel | Keithley2410.py:187-195 | sends the level iff Iout is true; otherwise fails with NotCurrentSource and sends nothing |
| Keithley.SourceMeter.SourceVoltageRange | Keithley2410.py:156-159 | sends the range query and succeeds iff the answer is one number, which it returns; the answer is consumed either way; with no reply left it fails with NoReply after sending, and a reply that is not one number gives NotANumber; on a closed session nothing is sent or consumed |
| Keithley.SourceMeter.SourceCurrentRange | Keithley2410.py:166-170 | as SourceVoltageRange, for the current range; with no reply left it fails with NoReply after sending, and a reply that is not one number gives NotANumber |
| Keithley.SourceMeter.SourceVoltageLevel | Keithley2410.py:177-180 | as SourceVoltageRange, for the voltage level; with no reply left it fails with NoReply after sending, and a reply that is not one number gives NotANumber |
| Keithley.SourceMeter.SourceCurrentLevel | Keithley2410.py:187-190 | as SourceVoltageRange, for the current level; with no reply left it fails with NoReply after sending, and a reply that is not one number gives NotANumber |
| Keithley.SourceMeter.OutputOn | Keithley2410.py:204-206 | sends `:OUTP ON` and sets outpOn; no other facet changes |
| Keithley.SourceMeter.OutputOff | Keithley2410.py:207-209 | sends `:OUTP OFF` and clears outpOn; no other facet changes |
| Keithley.SourceMeter.SenseOffAll | Keithley2410.py:217-221 | sends the all-off command and clears the three sense facets, nothing else |
| Keithley.SourceMeter.SenseOnAll | Keithley2410.py:223-227 | sends the all-on command and sets the three sense facets, nothing else |
| Keithley.SourceMeter.SenseSwitch | Keithley2410.py:229-249 | an unknown alias fails with InvalidSense before sending; a known one sends the switch command and sets Isense for CURR and Rsense for RES; Vsense and every other facet stay unchanged |
| Keithley.SourceMeter.SenseOn | Keithley2410.py:229-238 | sense_on: CURR/RES aliases set Isense/Rsense; a VOLT alias sends the command but leaves Vsense unchanged; an invalid alias changes nothing |
| Keithley.SourceMeter.SenseOff | Keithley2410.py:240-249 | sense_off: CURR/RES aliases clear Isense/Rsense; a VOLT alias leaves Vsense unchanged; an invalid alias changes nothing |
| Keithley.SourceMeter.QueryList | Keithley2410.py:251-273 | the reply `""` gives the empty list; any other reply gives commas+1 comma-free pieces whose comma-join is the reply; on a closed session it sends and consumes nothing (ConnectionClosed); with no reply left it fails with NoReply after sending |
| Keithley.SourceMeter.ActiveSenseFunctions | Keithley2410.py:251-261 | QueryList's result for the active-function query; on a closed session it sends and consumes nothing (ConnectionClosed); with no reply left it fails with NoReply after sending |
| Keithley.SourceMeter.InactiveSenseFunctions | Keithley2410.py:263-273 | QueryList's result for the inactive-function query; on a closed session it sends and consumes nothing (ConnectionClosed); with no reply left it fails with NoReply after sending |
| Keithley.SourceMeter.SetSenseCurrentRange | Keithley2410.py:275-285 | 'AUTO' sends the autorange command; a number is sent between two range queries, whose two replies are consumed; fails with NoReply when they are missing |
| Keithley.SourceMeter.QuerySenseCurrentRange | Keithley2410.py:275-278 | sends the range query and returns the raw reply; on a closed session it sends and consumes nothing (ConnectionClosed); with no reply left it fails with NoReply after sending |
| Keithley.SourceMeter.QuerySenseCurrentProt | Keithley2410.py:286-289 | sends the compliance query and returns the raw reply; on a closed session it sends and consumes nothing (ConnectionClosed); with no reply left it fails with NoReply after sending |
| Keithley.SourceMeter.SetSenseCurrentProt | Keithley2410.py:286-291 | sends the compliance setting, unguarded; sends nothing when closed |
| Keithley.SourceMeter.QuerySenseVoltageRange | Keithley2410.py:293-296 | sends the sense-voltage range query and returns the raw reply; on a closed session it sends and consumes nothing (ConnectionClosed); with no reply left it fails with NoReply after sending |
| Keithley.SourceMeter.SetSenseVoltageRange | Keithley2410.py:293-298 | sends the sense-voltage range setting, unguarded |
| Keithley.SourceMeter.QuerySenseVoltageProt | Keithley2410.py:300-303 | sends the voltage-compliance query and returns the raw reply; on a closed session it sends and consumes nothing (ConnectionClosed); with no reply left it fails with NoReply after sending |
| Keithley.SourceMeter.SetSenseVoltageProt | Keithley2410.py:300-305 | sends the voltage-compliance setting, unguarded |
| Keithley.SourceMeter.QueryFormat | Keithley2410.py:307-310 | sends the format query and returns the raw reply; on a closed session it sends and consumes nothing (ConnectionClosed); with no reply left it fails with NoReply after sending |
| Keithley.SourceMeter.SetFormat | Keithley2410.py:307-312 | sends the format setting, unguarded |
| Keithley.SourceMeter.Meas | Keithley2410.py:314-315 | sends `:READ?` and reads nothing; on a closed session fails with ConnectionClosed and sends nothing |
| IvSpec.ArangeUp | Keithley2410.py:370 | an increasing `np.arange` grid is start, start+step, ...; every point is below stop; one more point would reach stop |
| IvSpec.ArangeDown | Keithley2410.py:406 | the same for a decreasing grid: every point is above stop |
| IvSpec.ArangeRetrace | Keithley2410.py:429-434 | a grid cut after its n-th point is the grid that stops one step past that point |
| IvSpec.Reversed | Keithley2410.py:406 | `[::-1]`: same length, element i is element n-1-i of the input |
| IvSpec.Retrace | Keithley2410.py:429-434 | the down-sweep grid from the last up-point back to startV is the up-sweep's points reversed: it starts at the last up-point and ends at startV |
| IvSpec.SourceLevels | Keithley2410.py:334-362 | the voltage set-up of set_V_out_I_sense sets exactly one voltage, its own |
| IvSpec.SetupLevels | Keithley2410.py:372-387 | one sweep step sets exactly one voltage, its own |
| IvSpec.RampLevels | Keithley2410.py:372-387 | a sweep sets exactly the voltages it records, once each and in order |
| IvSpec.UpGridRanges | Keithley2410.py:372-382 | on the up-grid only the first point uses the caller's current range; every later point uses 'AUTO' |
| IvSpec.SweptStep | Keithley2410.py:384-394 | measuring one more point keeps the sweep invariant; the stop flag is set exactly when the new reading is above 95 % of maxI |
| IvSpec.SweptDone | Keithley2410.py:372-398 | a sweep that ran off the grid or stopped has one numeric reading per point, all but the last at or below the limit, and stopped early only on a reading above it |
| IvSpec.PicksAt | Keithley2410.py:377-379 | each recorded reading is the reply read last for its point |
| IvSpec.TraceStep | Keithley2410.py:372-387 | one measured step extends the sweep's command log, consumed replies and readings by that step's own |
| IvCurve.IvCurveMaker.constructor | Keithley2410.py:325-326 | the maker drives the given session |
| IvCurve.IvCurveMaker.SenseOffVoltRes | Keithley2410.py:335-336 | sends the two sense-off commands; because of the misspelling only Rsense changes |
| IvCurve.IvCurveMaker.EnsureVoltageSource | Keithley2410.py:344-345 | source_mode('VOLT') is sent only when Vout was false; afterwards Vout holds |
| IvCurve.IvCurveMaker.ConfigureCurrent | Keithley2410.py:347-352 | the compliance and the current range are sent only when given; fails with NoReply when the range queries get no answer |
| IvCurve.IvCurveMaker.LevelAndOutput | Keithley2410.py:355-362 | the level is always sent; with Isense false it then fails with NoSuchMethod (the `sens_on` typo); otherwise output_on is sent only when the output was off |
| IvCurve.IvCurveMaker.SourceVoltage | Keithley2410.py:339-362 | the voltage branch of set_V_out_I_sense: the new state and log, and its two failure causes |
| IvCurve.IvCurveMaker.SetVOutISense | Keithley2410.py:334-362 | fails with NoVoltage after the two sense-off commands when no voltage is given; succeeds iff open, a voltage is given, the range replies exist and Isense is true; the resulting state is the set-up specification's |
| IvCurve.IvCurveMaker.MeasureStep | Keithley2410.py:374-380 | one point: set-up, trigger, read; the reading is the reply after the set-up's replies |
| IvCurve.IvCurveMaker.Record | Keithley2410.py:372-387 | one point, stated against the whole sweep trace |
| IvCurve.IvCurveMaker.Advance | Keithley2410.py:382-394 | one up-sweep point: the reading must parse as one number; the stop flag is set iff it is above 95 % of maxI |
| IvCurve.IvCurveMaker.SweepUp | Keithley2410.py:372-394 | the up-loop returns a prefix of the grid with one numeric reading per point, every reading but the last at or below 95 % of maxI, and stops early only on a reading above it; an empty grid gives the empty sweep |
| IvCurve.IvCurveMaker.RampVoltUp | Keithley2410.py:364-398 | sets the CURR format, fails with InvalidStep on a zero step, and otherwise returns a sweep satisfying UpSweep, with the log and replies the trace specification gives; an empty grid gives the empty sweep |
| IvCurve.IvCurveMaker.Descend | Keithley2410.py:408-421 | one down-sweep point keeps the raw reply, with no conversion |
| IvCurve.IvCurveMaker.SweepDown | Keithley2410.py:408-421 | the down-loop measures every grid point, with no stop |
| IvCurve.IvCurveMaker.RampVoltDown | Keithley2410.py:402-427 | sets the CURR format; its points are exactly the reversed grid, with one reading each |
| IvCurve.IvCurveMaker.SweepBack | Keithley2410.py:432-435 | the down-sweep runs from the last up-point to startV over the up-points reversed; the meter ends in the state the trace specification gives for that sweep from the state after the up-sweep (plus the CURR format), followed by output off |
| IvCurve.IvCurveMaker.MakeIvCurve | Keithley2410.py:429-436 | CurveOf: *RST first (the facets take their defaults), then the up-sweep traced from that state, the down-sweep traced from the state the up-sweep leaves, and output off; the down points are the up points reversed, from the last up-point to startV; EmptyRamp exactly when the session is open, the step is non-zero and the up-grid is empty |
| Bins.ProcSuffix | dev.py:18-23 | the result is the alias-resolved name, with one leading `data_` removed if it had one |
| Bins.ProcSuffixStrips | dev.py:21-22 | `data_<stamp>` normalises to `<stamp>` |
| Bins.ProcSuffixAlias | dev.py:19-20 | an alias normalises to the time stamp it stands for |
| Bins.Runs | dev.py:103-133 | the runs are non-empty, each of one voltage; neighbouring runs differ in voltage; the last run ends with the last row |
| Bins.RunsFlatten | dev.py:112-133 | concatenating the runs gives back the log, in order |
| Bins.File | dev.py:116-129 | the first closed run becomes the first bin; filed middle runs all have at least two rows |
| Bins.FileCounts | dev.py:116-129 | every middle run is filed ascending, filed descending or dropped, exactly once; the row counts add up |
| Bins.BinsOf | dev.py:103-137 | the first and last bins are non-empty and every middle bin has at least two rows |
| Bins.Tails | dev.py:135 | each bin loses exactly its first row |
| Bins.Discard | dev.py:134-135 | with a first bin, every bin loses exactly its first row; without one, slicing fails (NoFirstBin) |
| Bins.OneRunNoFirst | dev.py:116-133 | a log with a single voltage has no first bin, no middle bins, and its whole self as last bin |
| Bins.FirstAndLast | dev.py:116-133 | with two or more runs, the first bin is the first run and the last bin the last run |
| Bins.Conservation | dev.py:112-137 | without discard, first + ascending + descending + last rows + dropped runs = rows of the log |
| Bins.Scan | dev.py:112-132 | one loop iteration keeps the loop invariant tying the loop variables to Runs and File |
| Bins.MakeBins | dev.py:103-137 | an empty log fails (EmptyLog); otherwise the result is BinsOf(log), or its Discard, and the warning count is the number of dropped runs |
| Bins.Trunc | dev.py:84 | Python `int()` of a real truncates toward zero |
| Bins.FirstWins | dev.py:83-97 | every kept bin comes from the input and is non-empty |
| Bins.FirstWinsKeys | dev.py:83-97 | the saved keys are distinct, and every bin's key is among them |
| Bins.FirstWinsHead | dev.py:83-89 | the first bin of a list is always saved, first |
| Bins.FirstIndices | dev.py:83-97 | the positions whose bin is the first of its key, in strictly increasing order: each such position and no other |
| Bins.EarliestOfKey | dev.py:83-87 | a key met at some position is met first at a position that is the first of its key |
| Bins.KeptKeyIffNotFirst | dev.py:84-87 | a bin's key is already among the saved keys exactly when an earlier bin has it |
| Bins.FirstWinsSelects | dev.py:83-97 | first wins: the saved bins are exactly the bins at first-of-key positions, in input order |
| Bins.SaveFirstPerKey | dev.py:83-97 | the saving loop keeps exactly FirstWins; saves plus warnings = bins |
| Bins.SaveBins | dev.py:73-101 | the files written: first-per-key ascending bins, then descending bins, then (with save_fl) the first and last bins, both named after the first bin's key; an empty log fails with EmptyLog and no first bin with NoFirstBin, writing nothing; with save_fl an empty first bin fails with EmptyBin after the ascending and descending files, which are still reported |
| Fitting.IsOrdered | dev.py:156-159 | 1 iff strictly rising, -1 iff strictly falling, 0 otherwise |
| Fitting.ExpFitGuard | dev.py:176-184 | without the spacing override it fails (undefined helper); with it, it fails exactly when is_ordered is 0, and otherwise gives the direction |
| Fitting.ExpFitGuardMonotone | dev.py:183-184 | the guard passes exactly for strictly monotone y values |
| Fitting.ThirdMarkers | dev.py:161-170 | 0 <= m1 <= m2 <= n |
| Fitting.ThirdsBalanced | dev.py:161-170 | each piece has n//3 or n//3+1 rows, the outer two are equal, and the sizes add up to n |
| Fitting.SplitThirds | dev.py:172-174 | the three pieces concatenate to the input and are cut at third_markers |
| Fitting.LinearFitHalves | dev.py:206-215 | fails (LengthMismatch) iff the lengths differ, and (TooFewPoints) iff n < 2; otherwise the halves [0, n//2) and [n//2, n) concatenate back to x and y |
| Fitting.HalvesNonEmpty | dev.py:210-215 | both halves are non-empty and differ in length by at most one |
| Fitting.SearchLeft | dev.py:227 | the insertion point of `searchsorted` (side left): everything before it is smaller, nothing after it is |
| Fitting.SearchLeftMonotone | dev.py:227 | a later time never gets an earlier insertion point |
| Fitting.TimeInterval | dev.py:226-227 | istart is the first row with time >= tstart and istop the first with time >= tstop; istart <= istop when tstart <= tstop |
| Fitting.TimedLinearFit | dev.py:222-230 | the fit receives exactly the time and current columns of the rows between the insertion points of tstart and tstop, split at half the window's length; the flag is true iff the window runs to the end of the bin; the only failure is too few points |
| Fitting.TimedWindow | dev.py:229-231 | the window is exactly the rows with tstart <= time < tstop |
| Fitting.TimedFitFails | dev.py:229-231 | the timed fit fails exactly when fewer than two rows fall in the window |
| TestStand.Checkv | TestStandUI.py:94-97 | the result lies in [0, 1100]; it is the identity there, 0 below and 1100 above |
| TestStand.CheckvIdempotent | TestStandUI.py:94-97 | clamping twice is clamping once |
| TestStand.CheckvMonotone | TestStandUI.py:94-97 | the clamp preserves order |
| TestStand.RangeFor | TestStandUI.py:67-71 | the low range (21) exactly for levels up to 21, else 1100; the chosen range holds every clamped level |
| TestStand.RangeSwitch | TestStandUI.py:53-61 | nothing is written iff the request equals the cached range; otherwise the range setting comes first |
| TestStand.DownLevels | TestStandUI.py:84-86 | the levels close sends are non-empty iff the bias is above 5 V; all lie strictly between 0 and the bias; the first is bias-5 and the last is at most 5 |
| TestStand.DownLevelsFall | TestStandUI.py:84-86 | each level is 5 V below the previous one (strictly falling); every level but the last is above 5 V |
| TestStand.IvServer.constructor | TestStandUI.py:50 | the range cache starts empty |
| TestStand.IvServer.SetSourceVoltageRange | TestStandUI.py:53-61 | a request equal to the cache sends nothing and succeeds; any other sets the range and caches the value read back; on failure the cache is unchanged; on a closed session nothing is sent or consumed, and a cache miss fails |
| TestStand.IvServer.SetvReads | TestStandUI.py:67-80 | setv reads three replies, or four when the range changes |
| TestStand.IvServer.Setv | TestStandUI.py:67-80 | requests range 1100 above 21 V and 21 otherwise, reads the range back, sends the level, then queries compliance and current range, with exactly that log; succeeds iff the session is open in voltage-source mode with enough replies, every reply but the last two being one number; on a closed session nothing is sent or consumed; the range cache becomes the value read back when the range was not already cached and the range step succeeded, and is otherwise unchanged |
| TestStand.IvServer.Meas | TestStandUI.py:63-66 | triggers a reading and returns its first two fields as (V, I); on a closed session nothing is sent or consumed; with no reply it fails with NoReply after the trigger; a reply with fewer than two numbers is consumed and gives NotANumber |
| TestStand.IvServer.RampDown | TestStandUI.py:84-87 | the loop sends exactly DownLevels of the measured bias, in order, and terminates; on failure nothing is sent |
| TestStand.IvServer.RampToZero | TestStandUI.py:84-88 | sends DownLevels of the measured bias, then 0; succeeds iff the session is open in voltage-source mode; on failure nothing is sent |
| TestStand.IvServer.Close | TestStandUI.py:82-90 | after the reading, sends the falling levels then 0, switches the output off and closes; succeeds iff open, in voltage-source mode and the reading has two numbers; on success only the output facet of the flags changes, on failure no flag and not the open state; on a closed session nothing is sent or consumed; any other failure leaves only the trigger sent and the reply (if any) consumed |
| TestStand.Initial | TestStandUI.py:106-121 | the start state is consistent, not auto-stepping, with empty data |
| TestStand.ChangedVoltage | TestStandUI.py:335-341 | the request is recorded; the recent index becomes the data length; the first index follows it only while the recent index was 0; the measurement timer restarts; the data is untouched |
| TestStand.AutoStepOffState | TestStandUI.py:208-211 | auto-step is off and its timer None; bias, data and requests are untouched |
| TestStand.AutoStepOnState | TestStandUI.py:199-205 | auto-step is on and armed, with timer 0 and the given stop, limit and mode; bias, data and requests are untouched |
| TestStand.IntervalUpdated | TestStandUI.py:135-136 | the auto-step interval becomes the given value; auto-step, its timer, the bias, the data and the requests are untouched |
| TestStand.StopUpdated | TestStandUI.py:137-138 | the stop voltage becomes the given value; auto-step, its timer, the bias, the data and the requests are untouched |
| TestStand.MaxCurrentUpdated | TestStandUI.py:139-143 | the current limit becomes the given value (None when unchecked); auto-step, its timer, the bias, the data and the requests are untouched |
| TestStand.ModeUpdated | TestStandUI.py:191-192 | the mode becomes the given text; auto-step, its timer, the bias, the data and the requests are untouched |
| TestStand.MeasurementIntervalChanged | TestStandUI.py:385-387 | the measurement interval becomes the given value; the measurement clock, auto-step, the bias, the data and the requests are untouched |
| TestStand.VoltageSet | TestStandUI.py:343-346 | the bias becomes the clamped request, which is handed to setv |
| TestStand.SteppedUp | TestStandUI.py:350-361 | bias = checkv(bias + step), handed to setv; auto-step stays on iff it was on and not (mode 'up' and the new bias >= the stop) |
| TestStand.SteppedDown | TestStandUI.py:364-375 | bias = checkv(bias - step), handed to setv; auto-step stays on iff it was on and not (mode 'down' and the new bias <= the stop) |
| TestStand.Logged | TestStandUI.py:248-260 | exactly one entry is appended to each data column; the first measurement's time is 0 and later ones are measured from it |
| TestStand.Measured | TestStandUI.py:248-273 | a current above MAX_CURRENT forces a step down after logging; otherwise the bias is unchanged, and auto-step ends iff it was on, a limit is set and I > limit·1e-6 |
| TestStand.AutoTicked | TestStandUI.py:234-244 | when not auto-stepping nothing changes; below the interval the timer advances by dt; on reaching it the timer resets to 0 and the panel steps up for 'up', down for 'down', and otherwise does nothing |
| TestStand.AutoTickRestarts | TestStandUI.py:238-244 | after auto-step fires, its timer reads 0, or None if the step itself ended auto-stepping |
| TestStand.Clocked | TestStandUI.py:216-224 | lastTime becomes now; the measurement timer advances by the elapsed time, 0 at the first event |
| TestStand.Ticked | TestStandUI.py:213-244 | timer_event logs a reading exactly when the measurement timer reaches 0.8 × the interval; lastTime becomes now |
| TestStand.ChangedKeeps | TestStandUI.py:335-341 | _changeVoltage keeps the panel consistent and only extends it |
| TestStand.AutoStepOffKeeps | TestStandUI.py:208-211 | autoStepOff keeps the panel consistent |
| TestStand.AutoStepOnKeeps | TestStandUI.py:199-205 | autoStepOn keeps the panel consistent (auto-step is armed) |
| TestStand.IntervalUpdatedKeeps | TestStandUI.py:135-136 | updating the interval keeps the panel consistent |
| TestStand.StopUpdatedKeeps | TestStandUI.py:137-138 | updating the stop voltage keeps the panel consistent |
| TestStand.MaxCurrentUpdatedKeeps | TestStandUI.py:139-143 | updating the current limit keeps the panel consistent |
| TestStand.ModeUpdatedKeeps | TestStandUI.py:191-192 | updating the mode keeps the panel consistent |
| TestStand.MeasurementIntervalChangedKeeps | TestStandUI.py:385-387 | changing the measurement interval keeps the panel consistent |
| TestStand.VoltageSetKeeps | TestStandUI.py:343-346 | setVoltage keeps the panel consistent |
| TestStand.SteppedUpKeeps | TestStandUI.py:350-361 | stepUp keeps the panel consistent |
| TestStand.SteppedDownKeeps | TestStandUI.py:364-375 | stepDown keeps the panel consistent |
| TestStand.LoggedKeeps | TestStandUI.py:248-260 | logging keeps the four columns equally long and only extends them |
| TestStand.MeasuredKeeps | TestStandUI.py:248-273 | doMeasurement keeps the panel consistent |
| TestStand.AutoTickedKeeps | TestStandUI.py:234-244 | the auto-step branch keeps the panel consistent |
| TestStand.TickedKeeps | TestStandUI.py:213-244 | timer_event keeps the panel consistent |
| TestStand.Panel.constructor | TestStandUI.py:106-121 | the panel starts in the Initial state, consistent |
| TestStand.Panel.ChangeVoltage | TestStandUI.py:335-341 | the new state is ChangedVoltage of the old; a clamped level keeps the panel valid |
| TestStand.Panel.Setv | TestStandUI.py:337 | the request is appended and nothing else changes; a clamped level keeps the panel valid |
| TestStand.Panel.SetVoltage | TestStandUI.py:343-348 | the new state is VoltageSet of the old, and consistent |
| TestStand.Panel.StepUp | TestStandUI.py:350-361 | the new state is SteppedUp of the old, and consistent |
| TestStand.Panel.StepDown | TestStandUI.py:364-375 | the new state is SteppedDown of the old, and consistent |
| TestStand.Panel.AutoStepOn | TestStandUI.py:199-206 | the new state is AutoStepOnState of the old, and the panel stays valid |
| TestStand.Panel.UpdateAutoStepInterval | TestStandUI.py:135-136 | the new state is IntervalUpdated of the old, and the panel stays valid |
| TestStand.Panel.UpdateAutoStepVoltageStop | TestStandUI.py:137-138 | the new state is StopUpdated of the old, and the panel stays valid |
| TestStand.Panel.UpdateAutoStepMaxCurrent | TestStandUI.py:139-143 | the new state is MaxCurrentUpdated of the old, and the panel stays valid |
| TestStand.Panel.UpdateAutoStepMode | TestStandUI.py:191-192 | the new state is ModeUpdated of the old, and the panel stays valid |
| TestStand.Panel.ChangeMeasurementInterval | TestStandUI.py:385-387 | the new state is MeasurementIntervalChanged of the old, and the panel stays valid |
| TestStand.Panel.AutoStepOff | TestStandUI.py:208-211 | the new state is AutoStepOffState of the old, and the panel stays valid |
| TestStand.Panel.LogReading | TestStandUI.py:248-260 | the new state is Logged of the old, and consistent |
| TestStand.Panel.DoMeasurement | TestStandUI.py:248-273 | the new state is Measured of the old, and consistent |
| TestStand.Panel.AutoStepTick | TestStandUI.py:234-244 | the new state is AutoTicked of the old, and consistent |
| TestStand.Panel.TimerEvent | TestStandUI.py:213-244 | the new state is Ticked of the old, and consistent |
| TestStand.Apply | TestStandUI.py:296-314 | every callback rig wires to this state (set, step up/down, auto-step on/off, the four auto-step widgets, the measurement interval) and the timer keeps auto-step armed |
| TestStand.ApplyKeeps | TestStandUI.py:296-314 | each of those callbacks keeps the panel consistent and only extends it |
| TestStand.RunKeeps | TestStandUI.py:296-314 | over any sequence of those callbacks: the panel stays consistent, the data and the requested biases only grow at their ends, and the change indices keep their order |

## Left out

- The VISA transport (resource manager, COM port, termination strings) is replaced by the command log and the reply script. Opening is modelled as a flag.
- Number formatting in commands: a command with a numeric argument is logged as a header plus the real value, not as formatted text.
- Replies are modelled as their text plus the numbers their comma-separated fields parse to. String-to-float parsing itself is not modelled.
- TestStand.IvServer.Meas: fails on any reply that does not parse to at least two numbers as a whole. The source needs only the first two fields to be numeric.
- `time.sleep` dwells (`waitT`, the 0.5 s pause in close) are left out. They change no state.
- Printing is left out, including the values the range queries print.
- Wall-clock time is left out. `time.time()` becomes the parameter `now`, and the instrument reading in `doMeasurement` becomes the parameters `voltage` and `current`.
- TestStand.IvServer.constructor: the set-up commands `ivServer.__init__` sends are not modelled. The wrapper takes an existing session.
- TestStand.Panel.Setv: the panel records each bias it hands to `setv` instead of driving an `IvServer`. Instrument errors during a panel callback are not modelled.
- The PyQt widgets, label updates, `updateStepToReadouts`, `refreshPlots`, the plot-refresh branch of `timer_event` and `changePlotRefreshInterval` are left out. They are display code. Widget values become parameters, and the wiring in `rig` becomes the cases of `Event`.
- `updateComplianceMaxCurrent` (a second instrument session from a button) is left out. So are `updateOutFileName` and the script's data saving on exit.
- dev.py's file I/O (`loadtxt`, `save`, `load`, `mkdir`), `load_raw_data`, `load_bin` and the plotting are left out. `save_bins` returns the list of files it would write.
- The numerical fits are left out: the log/exp closed form of `fit_exp_const_dx`, the `B < 0` check of `do_exponential_fit`, `curve_fit`, and the mean-based start values. Only the guards and index splits are modelled.
- The Keithley script block under `if False:` and dev.py's module-level script lines are left out.
- Reals are exact. Floating-point rounding is not modelled: `np.arange` over floats can produce one point more or fewer at the edge of the grid than `IvSpec.Arange` does.
- IvCurve.IvCurveMaker.RampVoltUp: the readings are kept as raw replies. The `np.array` packing of the result is not modelled.
