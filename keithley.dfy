/** The session with a Keithley 2410 source-meter: seven boolean mode facets
    that record what the session believes the instrument is doing, a guard on
    every command that needs a particular mode, and the rule that any opaque
    (public) write forgets all of them.  The transport is replaced by a log of
    the commands sent and a script of the replies the instrument gives. */
module Keithley {
  import opened Results

  /** The exceptions the session and the ramp routines raise. */
  datatype Fault =
    | ConnectionClosed   // read/write while the connection is closed
    | AlreadyOpen        // open() on an open connection
    | AlreadyClosed      // close() on a closed connection
    | InvalidSourceMode  // source_mode with an unknown alias
    | NotVoltageSource   // voltage range/level set while Vout is false
    | NotCurrentSource   // current range/level set while Iout is false
    | InvalidSense       // sense_on/sense_off with an unknown alias
    | NoReply            // the instrument had nothing to read (a transport time-out)
    | NotANumber         // float() of a reply that is not one number
    | NoVoltage          // set_V_out_I_sense without a voltage
    | NoSuchMethod       // AttributeError: the session has no `sens_on`
    | EmptyRamp          // IndexError: the last point of an empty up-ramp
    | InvalidStep        // np.arange with a zero step

  /** One line received from the instrument: its text, and the numbers its
      comma-separated fields parse to (empty when a field is not numeric). */
  datatype Reply = Reply(text: string, numbers: seq<real>)

  /** One command sent: fixed text, a header followed by a number, or bytes
      sent through write_raw (no line termination). */
  datatype Command =
    | Scpi(text: string)
    | ScpiArg(head: string, arg: real)
    | RawWrite(data: string)

  /** The argument of sense_current_range: the string 'AUTO' or a number. */
  datatype RangeArg = Auto | Fixed(amps: real)

  /** The seven mode facets, in the order Vout, Iout, Vsense, Isense, Rsense,
      remoteOn, outpOn. */
  datatype Mode = Mode(vOut: bool, iOut: bool, vSense: bool, iSense: bool,
                       rSense: bool, remoteOn: bool, outpOn: bool)

  /** What can be observed of an open session: its mode, the commands sent
      so far and the replies still to come. */
  datatype Observed = Observed(mode: Mode, log: seq<Command>, replies: seq<Reply>)

  /** rstFlags(): everything unknown. */
  const Cleared := Mode(false, false, false, false, false, false, false)
  /** rstFlags(default=True): the state after *RST, all sense functions on. */
  const Defaults := Mode(false, false, true, true, true, false, false)

  const SOURCE_ALIASES: map<string, string> := map[
    "VOLT" := "VOLT", "CURR" := "CURR",
    "volt" := "VOLT", "curr" := "CURR",
    "V" := "VOLT", "C" := "CURR",
    "v" := "VOLT", "c" := "CURR"]

  const SENSE_ALIASES: map<string, string> := map[
    "VOLT" := "VOLT", "CURR" := "CURR", "RES" := "RES",
    "volt" := "VOLT", "curr" := "CURR", "res" := "RES",
    "V" := "VOLT", "C" := "CURR", "R" := "RES",
    "v" := "VOLT", "c" := "CURR", "r" := "RES"]

  /** The value sense_on/sense_off compare against to decide whether to touch
      Vsense: spelled with a lower-case l, so it never matches. */
  const MISSPELT_VOLT := "VOlT"

  /** The reply the instrument gives for an empty list of functions. */
  const EMPTY_LIST := "\"\""

  /** SCPI headers the sweep set-up sends. */
  const OUTPUT_ON := ":OUTP ON"
  const READ := ":READ?"
  const CURR_PROT := ":SENS:CURR:PROT"
  const CURR_RANGE := ":SENS:CURR:RANG"
  const CURR_RANGE_QUERY := ":SENS:CURR:RANG?"
  const CURR_RANGE_AUTO := ":SENS:CURR:RANG:AUTO ON"
  const VOLT_LEVEL := ":SOUR:VOLT:LEV"
  const VOLT_RANGE := ":SOUR:VOLT:RANG"
  const VOLT_RANGE_QUERY := ":SOUR:VOLT:RANG?"
  const CURR_PROT_QUERY := ":SENS:CURR:PROT?"
  const OUTPUT_OFF := ":OUTP OFF"

  lemma SourceAliasTargets(setto: string)
    requires setto in SOURCE_ALIASES
    ensures SOURCE_ALIASES[setto] == "VOLT" || SOURCE_ALIASES[setto] == "CURR"
  {
  }

  /** Every sense alias names VOLT, CURR or RES, and none equals the misspelt
      comparison value, so the Vsense branch of sense_on/sense_off is dead. */
  lemma SenseAliasTargets(which: string)
    requires which in SENSE_ALIASES
    ensures SENSE_ALIASES[which] in {"VOLT", "CURR", "RES"}
    ensures SENSE_ALIASES[which] != MISSPELT_VOLT
  {
  }

  /** float(reply): succeeds exactly when the reply holds one number. */
  function ParseNumber(r: Reply): (x: Result<real, Fault>)
    ensures x.Ok? <==> |r.numbers| == 1
    ensures x.Ok? ==> x.value == r.numbers[0]
    ensures x.Err? ==> x.fault == NotANumber
  {
    if |r.numbers| == 1 then Ok(r.numbers[0]) else Err(NotANumber)
  }

  /** Number of occurrences of `c` in `s`. */
  function Count(s: string, c: char): nat
  {
    if s == [] then 0 else (if s[0] == c then 1 else 0) + Count(s[1..], c)
  }

  /** `parts` joined with `sep` between neighbours (Python's sep.join). */
  function Join(parts: seq<string>, sep: char): string
  {
    if |parts| == 0 then ""
    else if |parts| == 1 then parts[0]
    else parts[0] + [sep] + Join(parts[1..], sep)
  }

  lemma {:induction false} CountAppend(a: string, b: string, c: char)
    ensures Count(a + b, c) == Count(a, c) + Count(b, c)
  {
    if a == [] {
      assert a + b == b;
    } else {
      assert (a + b)[1..] == a[1..] + b;
      CountAppend(a[1..], b, c);
    }
  }

  lemma CountAbsent(s: string, c: char)
    requires c !in s
    ensures Count(s, c) == 0
  {
    if s != [] {
      CountAbsent(s[1..], c);
    }
  }

  /** Splitting off one more piece at a separator leaves the join unchanged. */
  lemma {:induction false} JoinSplitLast(xs: seq<string>, p: string, q: string, sep: char)
    ensures Join(xs + [p, q], sep) == Join(xs + [p + [sep] + q], sep)
  {
    if |xs| == 0 {
      assert xs + [p, q] == [p, q];
      assert [p, q][1..] == [q];
      assert xs + [p + [sep] + q] == [p + [sep] + q];
    } else {
      assert (xs + [p, q])[1..] == xs[1..] + [p, q];
      assert (xs + [p + [sep] + q])[1..] == xs[1..] + [p + [sep] + q];
      JoinSplitLast(xs[1..], p, q, sep);
      if |xs| == 1 {
        assert xs[1..] + [p, q] == [p, q];
      }
    }
  }

  /** The partition loop of get_(in)active_sense_functions: cut the reply at
      every comma.  The pieces hold no comma, there is one more piece than
      there are commas, and joining them back with commas gives the reply. */
  method SplitOnCommas(ans: string) returns (items: seq<string>)
    ensures |items| == Count(ans, ',') + 1
    ensures forall i :: 0 <= i < |items| ==> ',' !in items[i]
    ensures Join(items, ',') == ans
  {
    items := [];
    var rest := ans;
    while ',' in rest
      invariant forall i :: 0 <= i < |items| ==> ',' !in items[i]
      invariant Join(items + [rest], ',') == ans
      invariant Count(ans, ',') == |items| + Count(rest, ',')
      decreases |rest|
    {
      // rest.partition(',')
      var k := 0;
      while rest[k] != ','
        invariant 0 <= k < |rest|
        invariant ',' !in rest[..k]
        invariant ',' in rest[k..]
        decreases |rest| - k
      {
        assert rest[k..] == [rest[k]] + rest[k + 1..];
        assert rest[..k + 1] == rest[..k] + [rest[k]];
        k := k + 1;
      }
      var channel, tail := rest[..k], rest[k + 1..];
      assert rest == channel + [','] + tail;
      JoinSplitLast(items, channel, tail, ',');
      assert items + [channel, tail] == (items + [channel]) + [tail];
      CountAppend(channel + [','], tail, ',');
      CountAppend(channel, [','], ',');
      CountAbsent(channel, ',');
      assert Count([','], ',') == 1 by {
        assert [','][1..] == [];
      }
      items := items + [channel];
      rest := tail;
    }
    CountAbsent(rest, ',');
    items := items + [rest];
  }

  /** The commands sense_current_range(setto) sends for a number or 'AUTO';
      with a number it also queries the range before and after (the queries
      whose answers the source prints). */
  function RangeCommands(a: RangeArg): seq<Command>
  {
    match a
    case Auto => [Scpi(CURR_RANGE_AUTO)]
    case Fixed(x) => [Scpi(CURR_RANGE_QUERY), ScpiArg(CURR_RANGE, x), Scpi(CURR_RANGE_QUERY)]
  }

  /** The number of replies sense_current_range(setto) reads. */
  function RangeReads(a: RangeArg): nat
  {
    if a.Auto? then 0 else 2
  }

  class SourceMeter {
    var isOpen: bool
    var vOut: bool
    var iOut: bool
    var vSense: bool
    var iSense: bool
    var rSense: bool
    var remoteOn: bool
    var outpOn: bool
    /** Every command written to the instrument, oldest first. */
    var log: seq<Command>
    /** The replies the instrument has yet to give, next first. */
    var replies: seq<Reply>

    function Flags(): Mode
      reads this
    {
      Mode(vOut, iOut, vSense, iSense, rSense, remoteOn, outpOn)
    }

    function Observe(): Observed
      reads this
    {
      Observed(Flags(), log, replies)
    }

    /** Nothing observable changed. */
    twostate predicate Unchanged()
      reads this
    {
      isOpen == old(isOpen) && Flags() == old(Flags()) && log == old(log) && replies == old(replies)
    }

    /** Exactly `cmds` were written; no reply was read. */
    twostate predicate Sent(cmds: seq<Command>)
      reads this
    {
      isOpen == old(isOpen) && log == old(log) + cmds && replies == old(replies)
    }

    /** __init__: the connection is opened and every facet is false. */
    constructor (script: seq<Reply>)
      ensures isOpen && Flags() == Cleared
      ensures log == [] && replies == script
    {
      isOpen := true;
      vOut, iOut := false, false;
      vSense, iSense, rSense := false, false, false;
      remoteOn, outpOn := false, false;
      log, replies := [], script;
    }

    method Close() returns (r: Result<(), Fault>)
      modifies this`isOpen
      ensures r.Ok? <==> old(isOpen)
      ensures r.Err? ==> r.fault == AlreadyClosed
      ensures !isOpen
    {
      if isOpen {
        isOpen := false;
        r := Ok(());
      } else {
        r := Err(AlreadyClosed);
      }
    }

    method Open() returns (r: Result<(), Fault>)
      modifies this`isOpen
      ensures r.Ok? <==> !old(isOpen)
      ensures r.Err? ==> r.fault == AlreadyOpen
      ensures isOpen
    {
      if !isOpen {
        isOpen := true;
        r := Ok(());
      } else {
        r := Err(AlreadyOpen);
      }
    }

    /** rstFlags: source, remote and output forgotten; the sense facets all
        true when `default`, all false otherwise. */
    method RstFlags(default: bool)
      modifies this`vOut, this`iOut, this`vSense, this`iSense, this`rSense, this`remoteOn, this`outpOn
      ensures Flags() == if default then Defaults else Cleared
    {
      vOut, iOut := false, false;
      remoteOn, outpOn := false, false;
      if default {
        vSense, iSense, rSense := true, true, true;
      } else {
        vSense, iSense, rSense := false, false, false;
      }
    }

    /** The private __write: sends without touching any facet. */
    method Send(c: Command) returns (r: Result<(), Fault>)
      modifies this`log
      ensures r.Ok? <==> old(isOpen)
      ensures r.Ok? ==> log == old(log) + [c]
      ensures r.Err? ==> r.fault == ConnectionClosed && log == old(log)
    {
      if isOpen {
        log := log + [c];
        r := Ok(());
      } else {
        r := Err(ConnectionClosed);
      }
    }

    /** The public write: an opaque command, so every facet is forgotten. */
    method Write(data: string) returns (r: Result<(), Fault>)
      modifies this
      ensures r.Ok? <==> old(isOpen)
      ensures r.Ok? ==> Sent([Scpi(data)]) && Flags() == Cleared
      ensures r.Err? ==> r.fault == ConnectionClosed && Unchanged()
    {
      r := Send(Scpi(data));
      if r.Ok? {
        RstFlags(false);
      }
    }

    /** write_raw: as Write, without line termination. */
    method WriteRaw(data: string) returns (r: Result<(), Fault>)
      modifies this
      ensures r.Ok? <==> old(isOpen)
      ensures r.Ok? ==> Sent([RawWrite(data)]) && Flags() == Cleared
      ensures r.Err? ==> r.fault == ConnectionClosed && Unchanged()
    {
      r := Send(RawWrite(data));
      if r.Ok? {
        RstFlags(false);
      }
    }

    /** read: the next scripted reply; facets are untouched. */
    method Read() returns (r: Result<Reply, Fault>)
      modifies this`replies
      ensures r.Ok? <==> old(isOpen) && old(replies) != []
      ensures r.Ok? ==> r.value == old(replies)[0] && replies == old(replies)[1..]
      ensures !old(isOpen) ==> r == Err(ConnectionClosed) && replies == old(replies)
      ensures old(isOpen) && old(replies) == [] ==> r == Err(NoReply) && replies == old(replies)
    {
      if !isOpen {
        r := Err(ConnectionClosed);
      } else if replies == [] {
        r := Err(NoReply);
      } else {
        r := Ok(replies[0]);
        replies := replies[1..];
      }
    }

    /** A query: write `c`, then read its answer. */
    method Query(c: Command) returns (r: Result<Reply, Fault>)
      modifies this`log, this`replies
      ensures r.Ok? <==> old(isOpen) && old(replies) != []
      ensures r.Ok? ==> r.value == old(replies)[0] && replies == old(replies)[1..] && log == old(log) + [c]
      ensures !old(isOpen) ==> r == Err(ConnectionClosed) && log == old(log) && replies == old(replies)
      ensures old(isOpen) && old(replies) == [] ==> r == Err(NoReply) && log == old(log) + [c] && replies == old(replies)
    {
      var w := Send(c);
      if w.Err? {
        return Err(w.fault);
      }
      r := Read();
    }

    /** A query whose answer goes through float(). */
    method QueryNumber(c: Command) returns (r: Result<real, Fault>)
      modifies this`log, this`replies
      ensures r.Ok? <==> old(isOpen) && old(replies) != [] && |old(replies)[0].numbers| == 1
      ensures r.Ok? ==> r.value == old(replies)[0].numbers[0]
      ensures old(isOpen) && old(replies) != [] ==> replies == old(replies)[1..] && log == old(log) + [c]
      ensures !old(isOpen) ==> r == Err(ConnectionClosed) && log == old(log) && replies == old(replies)
      ensures old(isOpen) && old(replies) == [] ==> r == Err(NoReply) && log == old(log) + [c] && replies == old(replies)
      ensures old(isOpen) && old(replies) != [] && |old(replies)[0].numbers| != 1 ==> r == Err(NotANumber)
    {
      var q := Query(c);
      if q.Err? {
        return Err(q.fault);
      }
      r := ParseNumber(q.value);
    }

    /** reset: *RST, then the facets take the instrument's power-on defaults. */
    method Reset() returns (r: Result<(), Fault>)
      modifies this
      ensures r.Ok? <==> old(isOpen)
      ensures r.Ok? ==> Sent([Scpi("*RST")]) && Flags() == Defaults
      ensures r.Err? ==> r.fault == ConnectionClosed && Unchanged()
    {
      r := Send(Scpi("*RST"));
      if r.Ok? {
        RstFlags(true);
      }
    }

    method RemoteOn() returns (r: Result<(), Fault>)
      modifies this
      ensures r.Ok? <==> old(isOpen)
      ensures r.Ok? ==> Sent([Scpi(":SYST:RSEN ON")]) && Flags() == old(Flags()).(remoteOn := true)
      ensures r.Err? ==> r.fault == ConnectionClosed && Unchanged()
    {
      r := Send(Scpi(":SYST:RSEN ON"));
      if r.Ok? {
        remoteOn := true;
      }
    }

    method RemoteOff() returns (r: Result<(), Fault>)
      modifies this
      ensures r.Ok? <==> old(isOpen)
      ensures r.Ok? ==> Sent([Scpi(":SYST:RSEN OFF")]) && Flags() == old(Flags()).(remoteOn := false)
      ensures r.Err? ==> r.fault == ConnectionClosed && Unchanged()
    {
      r := Send(Scpi(":SYST:RSEN OFF"));
      if r.Ok? {
        remoteOn := false;
      }
    }

    /** source_mode() with no argument: ask the instrument. */
    method QuerySourceMode() returns (r: Result<Reply, Fault>)
      modifies this`log, this`replies
      ensures r.Ok? <==> old(isOpen) && old(replies) != []
      ensures r.Ok? ==> r.value == old(replies)[0] && replies == old(replies)[1..]
      ensures r.Ok? ==> log == old(log) + [Scpi(":SOUR:FUNC:MODE?")]
      ensures !old(isOpen) ==> r == Err(ConnectionClosed) && log == old(log) && replies == old(replies)
      ensures old(isOpen) && old(replies) == [] ==> r == Err(NoReply) && log == old(log) + [Scpi(":SOUR:FUNC:MODE?")] && replies == old(replies)
    {
      r := Query(Scpi(":SOUR:FUNC:MODE?"));
    }

    /** source_mode(setto): a known alias selects voltage or current sourcing
        (exactly one of Vout/Iout true); an unknown one raises before sending. */
    method SetSourceMode(setto: string) returns (r: Result<(), Fault>)
      modifies this
      ensures r.Ok? <==> setto in SOURCE_ALIASES && old(isOpen)
      ensures setto !in SOURCE_ALIASES ==> r == Err(InvalidSourceMode) && Unchanged()
      ensures setto in SOURCE_ALIASES && !old(isOpen) ==> r == Err(ConnectionClosed) && Unchanged()
      ensures r.Ok? ==> Sent([Scpi(":SOUR:FUNC " + SOURCE_ALIASES[setto])])
      ensures r.Ok? ==> vOut == (SOURCE_ALIASES[setto] == "VOLT") && iOut == !vOut
      ensures r.Ok? ==> Flags() == old(Flags()).(vOut := vOut, iOut := iOut)
    {
      if setto in SOURCE_ALIASES {
        var fn := SOURCE_ALIASES[setto];
        SourceAliasTargets(setto);
        r := Send(Scpi(":SOUR:FUNC " + fn));
        if r.Ok? {
          if fn == "VOLT" {
            vOut, iOut := true, false;
          }
          if fn == "CURR" {
            vOut, iOut := false, true;
          }
        }
      } else {
        r := Err(InvalidSourceMode);
      }
    }

    /** A setter guarded by a source facet: raises `fault` without sending
        unless `guard` holds.  No facet changes either way. */
    method GuardedSend(guard: bool, c: Command, fault: Fault) returns (r: Result<(), Fault>)
      modifies this`log
      ensures r.Ok? <==> guard && old(isOpen)
      ensures r.Ok? ==> log == old(log) + [c]
      ensures !guard ==> r == Err(fault) && log == old(log)
      ensures guard && !old(isOpen) ==> r == Err(ConnectionClosed) && log == old(log)
    {
      if guard {
        r := Send(c);
      } else {
        r := Err(fault);
      }
    }

    method SetSourceVoltageRange(setto: real) returns (r: Result<(), Fault>)
      modifies this`log
      ensures r.Ok? <==> vOut && old(isOpen)
      ensures r.Ok? ==> log == old(log) + [ScpiArg(VOLT_RANGE, setto)]
      ensures !vOut ==> r == Err(NotVoltageSource) && log == old(log)
      ensures vOut && !old(isOpen) ==> r == Err(ConnectionClosed) && log == old(log)
    {
      r := GuardedSend(vOut, ScpiArg(VOLT_RANGE, setto), NotVoltageSource);
    }

    method SetSourceCurrentRange(setto: real) returns (r: Result<(), Fault>)
      modifies this`log
      ensures r.Ok? <==> iOut && old(isOpen)
      ensures r.Ok? ==> log == old(log) + [ScpiArg(":SOUR:CURR:RANG", setto)]
      ensures !iOut ==> r == Err(NotCurrentSource) && log == old(log)
      ensures iOut && !old(isOpen) ==> r == Err(ConnectionClosed) && log == old(log)
    {
      r := GuardedSend(iOut, ScpiArg(":SOUR:CURR:RANG", setto), NotCurrentSource);
    }

    method SetSourceVoltageLevel(setto: real) returns (r: Result<(), Fault>)
      modifies this`log
      ensures r.Ok? <==> vOut && old(isOpen)
      ensures r.Ok? ==> log == old(log) + [ScpiArg(VOLT_LEVEL, setto)]
      ensures !vOut ==> r == Err(NotVoltageSource) && log == old(log)
      ensures vOut && !old(isOpen) ==> r == Err(ConnectionClosed) && log == old(log)
    {
      r := GuardedSend(vOut, ScpiArg(VOLT_LEVEL, setto), NotVoltageSource);
    }

    method SetSourceCurrentLevel(setto: real) returns (r: Result<(), Fault>)
      modifies this`log
      ensures r.Ok? <==> iOut && old(isOpen)
      ensures r.Ok? ==> log == old(log) + [ScpiArg(":SOUR:CURR:LEV", setto)]
      ensures !iOut ==> r == Err(NotCurrentSource) && log == old(log)
      ensures iOut && !old(isOpen) ==> r == Err(ConnectionClosed) && log == old(log)
    {
      r := GuardedSend(iOut, ScpiArg(":SOUR:CURR:LEV", setto), NotCurrentSource);
    }

    /** source_voltage_range() with no argument: float of the answer. */
    method SourceVoltageRange() returns (r: Result<real, Fault>)
      modifies this`log, this`replies
      ensures r.Ok? <==> old(isOpen) && old(replies) != [] && |old(replies)[0].numbers| == 1
      ensures r.Ok? ==> r.value == old(replies)[0].numbers[0]
      ensures old(isOpen) && old(replies) != [] ==> replies == old(replies)[1..] && log == old(log) + [Scpi(VOLT_RANGE_QUERY)]
      ensures !old(isOpen) ==> r == Err(ConnectionClosed) && log == old(log) && replies == old(replies)
      ensures old(isOpen) && old(replies) == [] ==> r == Err(NoReply) && log == old(log) + [Scpi(VOLT_RANGE_QUERY)] && replies == old(replies)
      ensures old(isOpen) && old(replies) != [] && |old(replies)[0].numbers| != 1 ==> r == Err(NotANumber)
    {
      r := QueryNumber(Scpi(VOLT_RANGE_QUERY));
    }

    method SourceCurrentRange() returns (r: Result<real, Fault>)
      modifies this`log, this`replies
      ensures r.Ok? <==> old(isOpen) && old(replies) != [] && |old(replies)[0].numbers| == 1
      ensures r.Ok? ==> r.value == old(replies)[0].numbers[0]
      ensures old(isOpen) && old(replies) != [] ==> replies == old(replies)[1..] && log == old(log) + [Scpi(":SOUR:CURR:RANG?")]
      ensures !old(isOpen) ==> r == Err(ConnectionClosed) && log == old(log) && replies == old(replies)
      ensures old(isOpen) && old(replies) == [] ==> r == Err(NoReply) && log == old(log) + [Scpi(":SOUR:CURR:RANG?")] && replies == old(replies)
      ensures old(isOpen) && old(replies) != [] && |old(replies)[0].numbers| != 1 ==> r == Err(NotANumber)
    {
      r := QueryNumber(Scpi(":SOUR:CURR:RANG?"));
    }

    method SourceVoltageLevel() returns (r: Result<real, Fault>)
      modifies this`log, this`replies
      ensures r.Ok? <==> old(isOpen) && old(replies) != [] && |old(replies)[0].numbers| == 1
      ensures r.Ok? ==> r.value == old(replies)[0].numbers[0]
      ensures old(isOpen) && old(replies) != [] ==> replies == old(replies)[1..] && log == old(log) + [Scpi(":SOUR:VOLT:LEV?")]
      ensures !old(isOpen) ==> r == Err(ConnectionClosed) && log == old(log) && replies == old(replies)
      ensures old(isOpen) && old(replies) == [] ==> r == Err(NoReply) && log == old(log) + [Scpi(":SOUR:VOLT:LEV?")] && replies == old(replies)
      ensures old(isOpen) && old(replies) != [] && |old(replies)[0].numbers| != 1 ==> r == Err(NotANumber)
    {
      r := QueryNumber(Scpi(":SOUR:VOLT:LEV?"));
    }

    method SourceCurrentLevel() returns (r: Result<real, Fault>)
      modifies this`log, this`replies
      ensures r.Ok? <==> old(isOpen) && old(replies) != [] && |old(replies)[0].numbers| == 1
      ensures r.Ok? ==> r.value == old(replies)[0].numbers[0]
      ensures old(isOpen) && old(replies) != [] ==> replies == old(replies)[1..] && log == old(log) + [Scpi(":SOUR:CURR:LEV?")]
      ensures !old(isOpen) ==> r == Err(ConnectionClosed) && log == old(log) && replies == old(replies)
      ensures old(isOpen) && old(replies) == [] ==> r == Err(NoReply) && log == old(log) + [Scpi(":SOUR:CURR:LEV?")] && replies == old(replies)
      ensures old(isOpen) && old(replies) != [] && |old(replies)[0].numbers| != 1 ==> r == Err(NotANumber)
    {
      r := QueryNumber(Scpi(":SOUR:CURR:LEV?"));
    }

    method OutputOn() returns (r: Result<(), Fault>)
      modifies this
      ensures r.Ok? <==> old(isOpen)
      ensures r.Ok? ==> Sent([Scpi(OUTPUT_ON)]) && Flags() == old(Flags()).(outpOn := true)
      ensures r.Err? ==> r.fault == ConnectionClosed && Unchanged()
    {
      r := Send(Scpi(OUTPUT_ON));
      if r.Ok? {
        outpOn := true;
      }
    }

    method OutputOff() returns (r: Result<(), Fault>)
      modifies this
      ensures r.Ok? <==> old(isOpen)
      ensures r.Ok? ==> Sent([Scpi(OUTPUT_OFF)]) && Flags() == old(Flags()).(outpOn := false)
      ensures r.Err? ==> r.fault == ConnectionClosed && Unchanged()
    {
      r := Send(Scpi(OUTPUT_OFF));
      if r.Ok? {
        outpOn := false;
      }
    }

    method SenseOffAll() returns (r: Result<(), Fault>)
      modifies this
      ensures r.Ok? <==> old(isOpen)
      ensures r.Ok? ==> Sent([Scpi(":SENS:FUNC:OFF:ALL")])
      ensures r.Ok? ==> Flags() == old(Flags()).(vSense := false, iSense := false, rSense := false)
      ensures r.Err? ==> r.fault == ConnectionClosed && Unchanged()
    {
      r := Send(Scpi(":SENS:FUNC:OFF:ALL"));
      if r.Ok? {
        vSense, iSense, rSense := false, false, false;
      }
    }

    method SenseOnAll() returns (r: Result<(), Fault>)
      modifies this
      ensures r.Ok? <==> old(isOpen)
      ensures r.Ok? ==> Sent([Scpi(":SENS:FUNC:ON:ALL")])
      ensures r.Ok? ==> Flags() == old(Flags()).(vSense := true, iSense := true, rSense := true)
      ensures r.Err? ==> r.fault == ConnectionClosed && Unchanged()
    {
      r := Send(Scpi(":SENS:FUNC:ON:ALL"));
      if r.Ok? {
        vSense, iSense, rSense := true, true, true;
      }
    }

    /** sense_on(which) and sense_off(which): an unknown alias raises before
        anything is sent.  CURR and RES aliases switch Isense and Rsense; the
        Vsense comparison is against the misspelt name, so a VOLT alias sends
        the command and leaves Vsense as it was. */
    method SenseSwitch(which: string, on: bool) returns (r: Result<(), Fault>)
      modifies this
      ensures r.Ok? <==> which in SENSE_ALIASES && old(isOpen)
      ensures which !in SENSE_ALIASES ==> r == Err(InvalidSense) && Unchanged()
      ensures which in SENSE_ALIASES && !old(isOpen) ==> r == Err(ConnectionClosed) && Unchanged()
      ensures r.Ok? ==> Sent([Scpi((if on then ":SENS:FUNC:ON '" else ":SENS:FUNC:OFF '") + SENSE_ALIASES[which] + "'")])
      ensures r.Ok? ==> Flags() == old(Flags()).(
                          iSense := if SENSE_ALIASES[which] == "CURR" then on else old(iSense),
                          rSense := if SENSE_ALIASES[which] == "RES" then on else old(rSense))
    {
      if which !in SENSE_ALIASES {
        return Err(InvalidSense);
      }
      var fn := SENSE_ALIASES[which];
      SenseAliasTargets(which);
      r := Send(Scpi((if on then ":SENS:FUNC:ON '" else ":SENS:FUNC:OFF '") + fn + "'"));
      if r.Ok? {
        vSense := if fn == MISSPELT_VOLT then on else vSense;
        iSense := if fn == "CURR" then on else iSense;
        rSense := if fn == "RES" then on else rSense;
      }
    }

    method SenseOn(which: string) returns (r: Result<(), Fault>)
      modifies this
      ensures r.Ok? <==> which in SENSE_ALIASES && old(isOpen)
      ensures which !in SENSE_ALIASES ==> r == Err(InvalidSense)
      ensures which in SENSE_ALIASES && !old(isOpen) ==> r == Err(ConnectionClosed)
      ensures r.Err? ==> Unchanged()
      ensures r.Ok? ==> Sent([Scpi(":SENS:FUNC:ON '" + SENSE_ALIASES[which] + "'")])
      ensures r.Ok? ==> Flags() == old(Flags()).(
                          iSense := old(iSense) || SENSE_ALIASES[which] == "CURR",
                          rSense := old(rSense) || SENSE_ALIASES[which] == "RES")
    {
      r := SenseSwitch(which, true);
    }

    method SenseOff(which: string) returns (r: Result<(), Fault>)
      modifies this
      ensures r.Ok? <==> which in SENSE_ALIASES && old(isOpen)
      ensures which !in SENSE_ALIASES ==> r == Err(InvalidSense)
      ensures which in SENSE_ALIASES && !old(isOpen) ==> r == Err(ConnectionClosed)
      ensures r.Err? ==> Unchanged()
      ensures r.Ok? ==> Sent([Scpi(":SENS:FUNC:OFF '" + SENSE_ALIASES[which] + "'")])
      ensures r.Ok? ==> Flags() == old(Flags()).(
                          iSense := old(iSense) && SENSE_ALIASES[which] != "CURR",
                          rSense := old(rSense) && SENSE_ALIASES[which] != "RES")
    {
      r := SenseSwitch(which, false);
    }

    /** get_active_sense_functions / get_inactive_sense_functions: the reply
        `""` is the empty list; any other reply is cut at its commas. */
    method QueryList(c: Command) returns (r: Result<seq<string>, Fault>)
      modifies this`log, this`replies
      ensures r.Ok? <==> old(isOpen) && old(replies) != []
      ensures r.Ok? ==> log == old(log) + [c] && replies == old(replies)[1..]
      ensures r.Ok? && old(replies)[0].text == EMPTY_LIST ==> r.value == []
      ensures r.Ok? && old(replies)[0].text != EMPTY_LIST ==>
                |r.value| == Count(old(replies)[0].text, ',') + 1 &&
                (forall i :: 0 <= i < |r.value| ==> ',' !in r.value[i]) &&
                Join(r.value, ',') == old(replies)[0].text
      ensures !old(isOpen) ==> r == Err(ConnectionClosed) && log == old(log) && replies == old(replies)
      ensures old(isOpen) && old(replies) == [] ==> r == Err(NoReply) && log == old(log) + [c] && replies == old(replies)
    {
      var q := Query(c);
      if q.Err? {
        return Err(q.fault);
      }
      var ans := q.value.text;
      if ans == EMPTY_LIST {
        return Ok([]);
      }
      var items := SplitOnCommas(ans);
      r := Ok(items);
    }

    method ActiveSenseFunctions() returns (r: Result<seq<string>, Fault>)
      modifies this`log, this`replies
      ensures r.Ok? <==> old(isOpen) && old(replies) != []
      ensures r.Ok? ==> log == old(log) + [Scpi(":SENS:FUNC:ON?")] && replies == old(replies)[1..]
      ensures r.Ok? && old(replies)[0].text == EMPTY_LIST ==> r.value == []
      ensures r.Ok? && old(replies)[0].text != EMPTY_LIST ==>
                |r.value| == Count(old(replies)[0].text, ',') + 1 &&
                (forall i :: 0 <= i < |r.value| ==> ',' !in r.value[i]) &&
                Join(r.value, ',') == old(replies)[0].text
      ensures !old(isOpen) ==> r == Err(ConnectionClosed) && log == old(log) && replies == old(replies)
      ensures old(isOpen) && old(replies) == [] ==> r == Err(NoReply) && log == old(log) + [Scpi(":SENS:FUNC:ON?")] && replies == old(replies)
    {
      r := QueryList(Scpi(":SENS:FUNC:ON?"));
    }

    method InactiveSenseFunctions() returns (r: Result<seq<string>, Fault>)
      modifies this`log, this`replies
      ensures r.Ok? <==> old(isOpen) && old(replies) != []
      ensures r.Ok? ==> log == old(log) + [Scpi(":SENS:FUNC:OFF?")] && replies == old(replies)[1..]
      ensures r.Ok? && old(replies)[0].text == EMPTY_LIST ==> r.value == []
      ensures r.Ok? && old(replies)[0].text != EMPTY_LIST ==>
                |r.value| == Count(old(replies)[0].text, ',') + 1 &&
                (forall i :: 0 <= i < |r.value| ==> ',' !in r.value[i]) &&
                Join(r.value, ',') == old(replies)[0].text
      ensures !old(isOpen) ==> r == Err(ConnectionClosed) && log == old(log) && replies == old(replies)
      ensures old(isOpen) && old(replies) == [] ==> r == Err(NoReply) && log == old(log) + [Scpi(":SENS:FUNC:OFF?")] && replies == old(replies)
    {
      r := QueryList(Scpi(":SENS:FUNC:OFF?"));
    }

    /** sense_current_range(setto): 'AUTO' turns autorange on; a number is
        sent between two queries of the range. */
    method SetSenseCurrentRange(setto: RangeArg) returns (r: Result<(), Fault>)
      modifies this`log, this`replies
      ensures r.Ok? <==> old(isOpen) && |old(replies)| >= RangeReads(setto)
      ensures r.Ok? ==> log == old(log) + RangeCommands(setto) && replies == old(replies)[RangeReads(setto)..]
      ensures old(isOpen) && r.Err? ==> r.fault == NoReply
      ensures !old(isOpen) ==> r == Err(ConnectionClosed) && log == old(log) && replies == old(replies)
    {
      match setto
      case Auto =>
        r := Send(Scpi(CURR_RANGE_AUTO));
      case Fixed(x) =>
        var before := Query(Scpi(CURR_RANGE_QUERY));
        if before.Err? {
          return Err(before.fault);
        }
        var w := Send(ScpiArg(CURR_RANGE, x));
        var after := Query(Scpi(CURR_RANGE_QUERY));
        if after.Err? {
          return Err(after.fault);
        }
        assert old(replies)[2..] == old(replies)[1..][1..];
        r := Ok(());
    }

    /** The query forms that return the raw reply. */
    method QuerySenseCurrentRange() returns (r: Result<Reply, Fault>)
      modifies this`log, this`replies
      ensures r.Ok? <==> old(isOpen) && old(replies) != []
      ensures r.Ok? ==> r.value == old(replies)[0] && replies == old(replies)[1..]
      ensures r.Ok? ==> log == old(log) + [Scpi(CURR_RANGE_QUERY)]
      ensures !old(isOpen) ==> r == Err(ConnectionClosed) && log == old(log) && replies == old(replies)
      ensures old(isOpen) && old(replies) == [] ==> r == Err(NoReply) && log == old(log) + [Scpi(CURR_RANGE_QUERY)] && replies == old(replies)
    {
      r := Query(Scpi(CURR_RANGE_QUERY));
    }

    method QuerySenseCurrentProt() returns (r: Result<Reply, Fault>)
      modifies this`log, this`replies
      ensures r.Ok? <==> old(isOpen) && old(replies) != []
      ensures r.Ok? ==> r.value == old(replies)[0] && replies == old(replies)[1..]
      ensures r.Ok? ==> log == old(log) + [Scpi(CURR_PROT_QUERY)]
      ensures !old(isOpen) ==> r == Err(ConnectionClosed) && log == old(log) && replies == old(replies)
      ensures old(isOpen) && old(replies) == [] ==> r == Err(NoReply) && log == old(log) + [Scpi(CURR_PROT_QUERY)] && replies == old(replies)
    {
      r := Query(Scpi(CURR_PROT_QUERY));
    }

    method QuerySenseVoltageRange() returns (r: Result<Reply, Fault>)
      modifies this`log, this`replies
      ensures r.Ok? <==> old(isOpen) && old(replies) != []
      ensures r.Ok? ==> r.value == old(replies)[0] && replies == old(replies)[1..]
      ensures r.Ok? ==> log == old(log) + [Scpi(":SENS:VOLT:RANG?")]
      ensures !old(isOpen) ==> r == Err(ConnectionClosed) && log == old(log) && replies == old(replies)
      ensures old(isOpen) && old(replies) == [] ==> r == Err(NoReply) && log == old(log) + [Scpi(":SENS:VOLT:RANG?")] && replies == old(replies)
    {
      r := Query(Scpi(":SENS:VOLT:RANG?"));
    }

    method QuerySenseVoltageProt() returns (r: Result<Reply, Fault>)
      modifies this`log, this`replies
      ensures r.Ok? <==> old(isOpen) && old(replies) != []
      ensures r.Ok? ==> r.value == old(replies)[0] && replies == old(replies)[1..]
      ensures r.Ok? ==> log == old(log) + [Scpi(":SENS:VOLT:PROT?")]
      ensures !old(isOpen) ==> r == Err(ConnectionClosed) && log == old(log) && replies == old(replies)
      ensures old(isOpen) && old(replies) == [] ==> r == Err(NoReply) && log == old(log) + [Scpi(":SENS:VOLT:PROT?")] && replies == old(replies)
    {
      r := Query(Scpi(":SENS:VOLT:PROT?"));
    }

    method QueryFormat() returns (r: Result<Reply, Fault>)
      modifies this`log, this`replies
      ensures r.Ok? <==> old(isOpen) && old(replies) != []
      ensures r.Ok? ==> r.value == old(replies)[0] && replies == old(replies)[1..]
      ensures r.Ok? ==> log == old(log) + [Scpi(":FORM:ELEM?")]
      ensures !old(isOpen) ==> r == Err(ConnectionClosed) && log == old(log) && replies == old(replies)
      ensures old(isOpen) && old(replies) == [] ==> r == Err(NoReply) && log == old(log) + [Scpi(":FORM:ELEM?")] && replies == old(replies)
    {
      r := Query(Scpi(":FORM:ELEM?"));
    }

    /** The setters of the sense-side protection and range, and of the
        reading format: unguarded, no facet changes. */
    method SetSenseCurrentProt(setto: real) returns (r: Result<(), Fault>)
      modifies this`log
      ensures r.Ok? <==> old(isOpen)
      ensures r.Ok? ==> log == old(log) + [ScpiArg(CURR_PROT, setto)]
      ensures r.Err? ==> log == old(log)
    {
      r := Send(ScpiArg(CURR_PROT, setto));
    }

    method SetSenseVoltageRange(setto: real) returns (r: Result<(), Fault>)
      modifies this`log
      ensures r.Ok? <==> old(isOpen)
      ensures r.Ok? ==> log == old(log) + [ScpiArg(":SENS:VOLT:RANG", setto)]
      ensures r.Err? ==> log == old(log)
    {
      r := Send(ScpiArg(":SENS:VOLT:RANG", setto));
    }

    method SetSenseVoltageProt(setto: real) returns (r: Result<(), Fault>)
      modifies this`log
      ensures r.Ok? <==> old(isOpen)
      ensures r.Ok? ==> log == old(log) + [ScpiArg(":SENS:VOLT:PROT", setto)]
      ensures r.Err? ==> log == old(log)
    {
      r := Send(ScpiArg(":SENS:VOLT:PROT", setto));
    }

    method SetFormat(elements: string) returns (r: Result<(), Fault>)
      modifies this`log
      ensures r.Ok? <==> old(isOpen)
      ensures r.Ok? ==> log == old(log) + [Scpi(":FORM:ELEM " + elements)]
      ensures r.Err? ==> r.fault == ConnectionClosed && log == old(log)
    {
      r := Send(Scpi(":FORM:ELEM " + elements));
    }

    /** meas: trigger a reading; its answer is read separately. */
    method Meas() returns (r: Result<(), Fault>)
      modifies this`log
      ensures r.Ok? <==> old(isOpen)
      ensures r.Ok? ==> log == old(log) + [Scpi(READ)]
      ensures r.Err? ==> r.fault == ConnectionClosed && log == old(log)
    {
      r := Send(Scpi(READ));
    }
  }
}
