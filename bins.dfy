/** The bin segmentation of the analysis script: a sample log is cut into
    maximal runs of equal bias voltage; the first and last runs are kept
    apart, a middle run is filed as ascending or descending by comparing its
    voltage with the run before it, middle runs of a single sample are
    dropped, and saving keeps only the first bin of each whole-volt key.
    Also the data-set name normalisation. */
module Bins {
  import opened Results

  /** One sample of the log: time, bias voltage and current columns. */
  datatype Row = Row(time: real, voltage: real, current: real)

  /** What make_bins returns: the first run (None while the log has a single
      run), the ascending and descending middle runs, and the last run. */
  datatype Bins = Bins(first: Option<seq<Row>>, asc: seq<seq<Row>>, desc: seq<seq<Row>>, last: seq<Row>)

  datatype BinFault =
    | EmptyLog      // raw_data[0,1] of a log without rows
    | NoFirstBin    // slicing the first bin when the log has one run only
    | EmptyBin      // bin_[0,1] of a bin left without rows

  // ---------------------------------------------------------------------
  // Data-set names
  // ---------------------------------------------------------------------

  const DATA_PREFIX := "data_"

  /** Short names of some data sets and the time stamps they stand for. */
  const DS_ALIASES: map<string, string> := map[
    "72_ovn_dry" := "2018_7_12_11_44_25",
    "72_3h_cabinet" := "2018_7_12_16_28_40",
    "72_ovn_cabinet" := "2018_7_13_12_31_39",
    "82_ovn_cabinet" := "2018_7_12_14_20_9",
    "82_ovn_dry" := "2018_7_13_10_29_45"
  ]

  /** proc_suffix: resolve an alias, then drop one leading "data_". */
  function ProcSuffix(suffix: string): (r: string)
    ensures var s := if suffix in DS_ALIASES then DS_ALIASES[suffix] else suffix;
            s == r || s == DATA_PREFIX + r
  {
    var s := if suffix in DS_ALIASES then DS_ALIASES[suffix] else suffix;
    if DATA_PREFIX <= s then s[|DATA_PREFIX|..] else s
  }

  /** A file stem "data_<stamp>" names the data set <stamp>. */
  lemma ProcSuffixStrips(stamp: string)
    ensures ProcSuffix(DATA_PREFIX + stamp) == stamp
  {
    assert DATA_PREFIX + stamp !in DS_ALIASES by {
      assert (DATA_PREFIX + stamp)[0] == 'd';
    }
    assert DATA_PREFIX <= DATA_PREFIX + stamp;
    assert (DATA_PREFIX + stamp)[|DATA_PREFIX|..] == stamp;
  }

  /** An alias names the time stamp it stands for. */
  lemma ProcSuffixAlias(alias: string)
    requires alias in DS_ALIASES
    ensures ProcSuffix(alias) == DS_ALIASES[alias]
  {
    var s := DS_ALIASES[alias];
    assert s[0] == '2';
    assert !(DATA_PREFIX <= s);
  }

  // ---------------------------------------------------------------------
  // Runs of equal voltage
  // ---------------------------------------------------------------------

  /** Every sample of `run` has the voltage of its first. */
  predicate Uniform(run: seq<Row>)
    requires run != []
  {
    forall j :: 0 <= j < |run| ==> run[j].voltage == run[0].voltage
  }

  /** The maximal runs of equal voltage of `rows`, in log order. */
  function Runs(rows: seq<Row>): (rs: seq<seq<Row>>)
    ensures rows != [] <==> rs != []
    ensures forall k :: 0 <= k < |rs| ==> rs[k] != [] && Uniform(rs[k])
    ensures forall k :: 0 < k < |rs| ==> rs[k][0].voltage != rs[k - 1][0].voltage
    ensures rs != [] ==> rs[|rs| - 1][|rs[|rs| - 1]| - 1] == rows[|rows| - 1]
  {
    if rows == [] then []
    else
      var rs := Runs(rows[..|rows| - 1]);
      var r := rows[|rows| - 1];
      if rs != [] && rs[|rs| - 1][0].voltage == r.voltage then
        rs[..|rs| - 1] + [rs[|rs| - 1] + [r]]
      else
        rs + [[r]]
  }

  /** The rows of a list of runs, in order. */
  function Flatten(rs: seq<seq<Row>>): seq<Row>
  {
    if rs == [] then [] else Flatten(rs[..|rs| - 1]) + rs[|rs| - 1]
  }

  /** Total number of rows in a list of runs. */
  function Total(rs: seq<seq<Row>>): nat
  {
    if rs == [] then 0 else Total(rs[..|rs| - 1]) + |rs[|rs| - 1]|
  }

  lemma FlattenAppend(rs: seq<seq<Row>>, run: seq<Row>)
    ensures Flatten(rs + [run]) == Flatten(rs) + run
    ensures Total(rs + [run]) == Total(rs) + |run|
  {
    assert (rs + [run])[..|rs|] == rs;
  }

  lemma TotalAppend(rs: seq<seq<Row>>, run: seq<Row>)
    ensures Total(rs + [run]) == Total(rs) + |run|
  {
    assert (rs + [run])[..|rs|] == rs;
  }

  lemma {:induction false} TotalFlatten(rs: seq<seq<Row>>)
    ensures Total(rs) == |Flatten(rs)|
    decreases |rs|
  {
    if rs != [] {
      TotalFlatten(rs[..|rs| - 1]);
    }
  }

  /** Growing the last run by one row grows the flattened rows by it. */
  lemma FlattenGrow(init: seq<seq<Row>>, last: seq<Row>, r: Row)
    ensures Flatten(init + [last + [r]]) == Flatten(init + [last]) + [r]
  {
    calc {
      Flatten(init + [last + [r]]);
      { FlattenAppend(init, last + [r]); }
      Flatten(init) + (last + [r]);
      (Flatten(init) + last) + [r];
      { FlattenAppend(init, last); }
      Flatten(init + [last]) + [r];
    }
  }

  /** A sample at the voltage of the last run extends that run. */
  lemma FlattenJoin(p: seq<Row>, r: Row)
    requires Flatten(Runs(p)) == p
    requires Runs(p) != [] && Runs(p)[|Runs(p)| - 1][0].voltage == r.voltage
    ensures Flatten(Runs(p + [r])) == p + [r]
  {
    var rs := Runs(p);
    var init, last := rs[..|rs| - 1], rs[|rs| - 1];
    assert (p + [r])[..|p|] == p;
    assert Runs(p + [r]) == init + [last + [r]];
    assert rs == init + [last];
    FlattenGrow(init, last, r);
  }

  /** A sample at another voltage opens a run of its own. */
  lemma FlattenOpen(p: seq<Row>, r: Row)
    requires Flatten(Runs(p)) == p
    requires !(Runs(p) != [] && Runs(p)[|Runs(p)| - 1][0].voltage == r.voltage)
    ensures Flatten(Runs(p + [r])) == p + [r]
  {
    assert (p + [r])[..|p|] == p;
    assert Runs(p + [r]) == Runs(p) + [[r]];
    FlattenAppend(Runs(p), [r]);
  }

  /** The runs of a log, put back together, are the log. */
  lemma {:induction false} RunsFlatten(rows: seq<Row>)
    ensures Flatten(Runs(rows)) == rows
    decreases |rows|
  {
    if rows != [] {
      var p := rows[..|rows| - 1];
      var r: Row := rows[|rows| - 1];
      assert p + [r] == rows;
      RunsFlatten(p);
      if Runs(p) != [] && Runs(p)[|Runs(p)| - 1][0].voltage == r.voltage {
        FlattenJoin(p, r);
      } else {
        FlattenOpen(p, r);
      }
    }
  }

  // ---------------------------------------------------------------------
  // Filing the runs
  // ---------------------------------------------------------------------

  /** How the closed runs are filed, and how many single-sample middle runs
      were dropped with a warning. */
  datatype Filing = Filing(first: Option<seq<Row>>, asc: seq<seq<Row>>, desc: seq<seq<Row>>, dropped: nat)

  /** Filing of the runs `cs` closed so far: the first becomes the first
      bin; each later one is dropped when it has a single sample, and
      otherwise is ascending exactly when its voltage is above the voltage
      of the run before it. */
  function File(cs: seq<seq<Row>>): (f: Filing)
    requires forall k :: 0 <= k < |cs| ==> cs[k] != []
    ensures f.first.Some? <==> cs != []
    ensures cs != [] ==> f.first == Some(cs[0])
    ensures forall b :: b in f.asc ==> |b| >= 2
    ensures forall b :: b in f.desc ==> |b| >= 2
  {
    if cs == [] then Filing(None, [], [], 0)
    else
      var f := File(cs[..|cs| - 1]);
      var c := cs[|cs| - 1];
      if f.first.None? then f.(first := Some(c))
      else if |c| == 1 then f.(dropped := f.dropped + 1)
      else if c[0].voltage > cs[|cs| - 2][0].voltage then f.(asc := f.asc + [c])
      else f.(desc := f.desc + [c])
  }

  /** Every middle run is accounted for once: filed ascending, filed
      descending, or dropped. */
  lemma {:induction false} FileCounts(cs: seq<seq<Row>>)
    requires forall k :: 0 <= k < |cs| ==> cs[k] != []
    requires cs != []
    ensures |File(cs).asc| + |File(cs).desc| + File(cs).dropped == |cs| - 1
    ensures |cs[0]| + Total(File(cs).asc) + Total(File(cs).desc) + File(cs).dropped == Total(cs)
    decreases |cs|
  {
    var c := cs[|cs| - 1];
    var init := cs[..|cs| - 1];
    assert cs == init + [c];
    TotalAppend(init, c);
    if |cs| > 1 {
      FileCounts(init);
      var f := File(init);
      assert init[0] == cs[0];
      if |c| == 1 {
        assert File(cs) == f.(dropped := f.dropped + 1);
      } else if c[0].voltage > cs[|cs| - 2][0].voltage {
        assert File(cs) == f.(asc := f.asc + [c]);
        TotalAppend(f.asc, c);
      } else {
        assert File(cs) == f.(desc := f.desc + [c]);
        TotalAppend(f.desc, c);
      }
    }
  }

  /** make_bins on a non-empty log, keeping every sample: the runs up to
      the last filed, and the last run as the last bin. */
  function BinsOf(rows: seq<Row>): (b: Bins)
    requires rows != []
    ensures b.last != [] && (b.first.Some? ==> b.first.value != [])
    ensures forall k :: 0 <= k < |b.asc| ==> |b.asc[k]| >= 2
    ensures forall k :: 0 <= k < |b.desc| ==> |b.desc[k]| >= 2
  {
    var rs := Runs(rows);
    var f := File(rs[..|rs| - 1]);
    assert forall k :: 0 <= k < |f.asc| ==> f.asc[k] in f.asc;
    assert forall k :: 0 <= k < |f.desc| ==> f.desc[k] in f.desc;
    Bins(f.first, f.asc, f.desc, rs[|rs| - 1])
  }

  /** The warnings make_bins prints for a non-empty log. */
  function DroppedOf(rows: seq<Row>): nat
    requires rows != []
  {
    var rs := Runs(rows);
    File(rs[..|rs| - 1]).dropped
  }

  /** Each bin without its first sample. */
  function Tails(bs: seq<seq<Row>>): (ts: seq<seq<Row>>)
    requires forall k :: 0 <= k < |bs| ==> bs[k] != []
    ensures |ts| == |bs|
    ensures forall k :: 0 <= k < |bs| ==> ts[k] == bs[k][1..]
  {
    seq(|bs|, k requires 0 <= k < |bs| => bs[k][1..])
  }

  /** The bins with the first sample of each discarded; slicing the first
      bin fails when there is none. */
  function Discard(b: Bins): (r: Result<Bins, BinFault>)
    requires b.first.Some? ==> b.first.value != []
    requires b.last != []
    requires forall k :: 0 <= k < |b.asc| ==> b.asc[k] != []
    requires forall k :: 0 <= k < |b.desc| ==> b.desc[k] != []
    ensures r.Err? <==> b.first.None?
    ensures r.Err? ==> r.fault == NoFirstBin
    ensures r.Ok? ==> r.value.first == Some(b.first.value[1..]) && r.value.last == b.last[1..]
    ensures r.Ok? ==> |r.value.asc| == |b.asc| && |r.value.desc| == |b.desc|
    ensures r.Ok? ==> forall k :: 0 <= k < |b.asc| ==> [b.asc[k][0]] + r.value.asc[k] == b.asc[k]
    ensures r.Ok? ==> forall k :: 0 <= k < |b.desc| ==> [b.desc[k][0]] + r.value.desc[k] == b.desc[k]
  {
    if b.first.None? then Err(NoFirstBin)
    else Ok(Bins(Some(b.first.value[1..]), Tails(b.asc), Tails(b.desc), b.last[1..]))
  }

  /** A log with a single voltage has no first bin: its only run is the
      last bin. */
  lemma OneRunNoFirst(rows: seq<Row>)
    requires rows != [] && |Runs(rows)| == 1
    ensures BinsOf(rows).first.None? && BinsOf(rows).last == rows
    ensures BinsOf(rows).asc == [] && BinsOf(rows).desc == []
  {
    var rs := Runs(rows);
    RunsFlatten(rows);
    assert rs == [] + [rs[0]];
    FlattenAppend([], rs[0]);
  }

  /** With at least two runs the first bin is the first run and the last
      bin the last run. */
  lemma FirstAndLast(rows: seq<Row>)
    requires rows != [] && |Runs(rows)| >= 2
    ensures BinsOf(rows).first == Some(Runs(rows)[0])
    ensures BinsOf(rows).last == Runs(rows)[|Runs(rows)| - 1]
  {
  }

  /** Without discarding, the samples of the bins plus one per dropped run
      are all the samples of the log. */
  lemma Conservation(rows: seq<Row>)
    requires rows != []
    ensures var b := BinsOf(rows);
            (if b.first.Some? then |b.first.value| else 0) + Total(b.asc) + Total(b.desc) + |b.last| + DroppedOf(rows)
            == |rows|
  {
    var rs := Runs(rows);
    var cs := rs[..|rs| - 1];
    RunsFlatten(rows);
    TotalFlatten(rs);
    assert rs == cs + [rs[|rs| - 1]];
    FlattenAppend(cs, rs[|rs| - 1]);
    if cs != [] {
      FileCounts(cs);
    }
  }

  /** A sample at the voltage of the open run joins it. */
  lemma RunGrows(rows: seq<Row>, i: nat, closed: seq<seq<Row>>, open: seq<Row>)
    requires i < |rows| && open != [] && Runs(rows[..i]) == closed + [open]
    requires rows[i].voltage == open[0].voltage
    ensures Runs(rows[..i + 1]) == closed + [open + [rows[i]]]
  {
    assert rows[..i + 1][..i] == rows[..i];
  }

  /** A sample at another voltage closes the open run and opens its own. */
  lemma RunCloses(rows: seq<Row>, i: nat, closed: seq<seq<Row>>, open: seq<Row>)
    requires i < |rows| && open != [] && Runs(rows[..i]) == closed + [open]
    requires rows[i].voltage != open[0].voltage
    ensures Runs(rows[..i + 1]) == (closed + [open]) + [[rows[i]]]
  {
    assert rows[..i + 1][..i] == rows[..i];
  }

  /** Filing one more closed run. */
  lemma FileStep(cs: seq<seq<Row>>, c: seq<Row>)
    requires forall k :: 0 <= k < |cs| ==> cs[k] != []
    requires c != []
    ensures var f := File(cs);
            File(cs + [c])
            == if f.first.None? then f.(first := Some(c))
               else if |c| == 1 then f.(dropped := f.dropped + 1)
               else if c[0].voltage > cs[|cs| - 1][0].voltage then f.(asc := f.asc + [c])
               else f.(desc := f.desc + [c])
  {
    assert (cs + [c])[..|cs|] == cs;
  }

  /** One sample of make_bins' loop, on the loop's own variables. */
  method Scan(rows: seq<Row>, i: nat, ghost closed: seq<seq<Row>>, first: Option<seq<Row>>, asc: seq<seq<Row>>, desc: seq<seq<Row>>,
              warnings: nat, thisBin: seq<Row>, thisVoltage: real, thisAsc: bool)
    returns (ghost closed': seq<seq<Row>>, first': Option<seq<Row>>, asc': seq<seq<Row>>, desc': seq<seq<Row>>,
             warnings': nat, thisBin': seq<Row>, thisVoltage': real, thisAsc': bool)
    requires 0 < i < |rows| && thisBin != [] && thisVoltage == thisBin[0].voltage
    requires Runs(rows[..i]) == closed + [thisBin]
    requires forall k :: 0 <= k < |closed| ==> closed[k] != []
    requires Filing(first, asc, desc, warnings) == File(closed)
    requires closed != [] ==> (thisAsc <==> thisVoltage > closed[|closed| - 1][0].voltage)
    ensures thisBin' != [] && thisVoltage' == thisBin'[0].voltage
    ensures Runs(rows[..i + 1]) == closed' + [thisBin']
    ensures forall k :: 0 <= k < |closed'| ==> closed'[k] != []
    ensures Filing(first', asc', desc', warnings') == File(closed')
    ensures closed' != [] ==> (thisAsc' <==> thisVoltage' > closed'[|closed'| - 1][0].voltage)
  {
    closed', first', asc', desc', warnings', thisBin', thisVoltage', thisAsc'
      := closed, first, asc, desc, warnings, thisBin, thisVoltage, thisAsc;
    var row := rows[i];
    if row.voltage == thisVoltage {
      RunGrows(rows, i, closed, thisBin);
      thisBin' := thisBin + [row];
    } else {
      RunCloses(rows, i, closed, thisBin);
      FileStep(closed, thisBin);
      if first.None? {
        first' := Some(thisBin);
      } else if |thisBin| == 1 {
        warnings' := warnings + 1;
      } else if thisAsc {
        asc' := asc + [thisBin];
      } else {
        desc' := desc + [thisBin];
      }
      thisAsc' := row.voltage > thisVoltage;
      closed' := closed + [thisBin];
      thisVoltage' := row.voltage;
      thisBin' := [row];
    }
  }

  /** make_bins(raw_data, discard_first_point_per_bin): walk the log once,
      closing the current run at each change of voltage.  Returns the bins
      and the number of single-sample warnings printed. */
  method MakeBins(rows: seq<Row>, discard: bool) returns (r: Result<Bins, BinFault>, warnings: nat)
    ensures rows == [] ==> r == Err(EmptyLog)
    ensures rows != [] ==> warnings == DroppedOf(rows)
    ensures rows != [] && !discard ==> r == Ok(BinsOf(rows))
    ensures rows != [] && discard ==> r == Discard(BinsOf(rows))
  {
    if rows == [] {
      return Err(EmptyLog), 0;
    }
    var first: Option<seq<Row>> := None;
    var asc: seq<seq<Row>> := [];
    var desc: seq<seq<Row>> := [];
    var thisVoltage := rows[0].voltage;
    var thisAsc := false;
    warnings := 0;
    ghost var closed: seq<seq<Row>> := [];
    // The first sample always matches the starting voltage.
    var thisBin: seq<Row> := [rows[0]];
    assert Runs(rows[..1]) == [[rows[0]]] by {
      assert rows[..1][..0] == [];
    }
    for i := 1 to |rows|
      invariant thisBin != [] && thisVoltage == thisBin[0].voltage
      invariant Runs(rows[..i]) == closed + [thisBin]
      invariant forall k :: 0 <= k < |closed| ==> closed[k] != []
      invariant Filing(first, asc, desc, warnings) == File(closed)
      invariant closed != [] ==> (thisAsc <==> thisVoltage > closed[|closed| - 1][0].voltage)
    {
      closed, first, asc, desc, warnings, thisBin, thisVoltage, thisAsc
        := Scan(rows, i, closed, first, asc, desc, warnings, thisBin, thisVoltage, thisAsc);
    }
    assert rows[..|rows|] == rows;
    assert closed == Runs(rows)[..|Runs(rows)| - 1];
    var b := Bins(first, asc, desc, thisBin);
    if discard {
      r := Discard(b);
    } else {
      r := Ok(b);
    }
  }

  // ---------------------------------------------------------------------
  // Saving: the first bin of each whole-volt key wins
  // ---------------------------------------------------------------------

  /** Python's int() of a float: truncation toward zero. */
  function Trunc(x: real): (n: int)
    ensures x >= 0.0 ==> n as real <= x < n as real + 1.0
    ensures x < 0.0 ==> n as real - 1.0 < x <= n as real
  {
    if x >= 0.0 then x.Floor else -((-x).Floor)
  }

  /** The key a bin is saved under: int() of its first voltage. */
  function Key(bin: seq<Row>): int
    requires bin != []
  {
    Trunc(bin[0].voltage)
  }

  function Keys(bs: seq<seq<Row>>): (ks: seq<int>)
    requires forall k :: 0 <= k < |bs| ==> bs[k] != []
    ensures |ks| == |bs|
    ensures forall k :: 0 <= k < |bs| ==> ks[k] == Key(bs[k])
  {
    seq(|bs|, k requires 0 <= k < |bs| => Key(bs[k]))
  }

  /** The bins kept from `bs`, in order: each one whose key no earlier bin
      has. */
  function FirstWins(bs: seq<seq<Row>>): (kept: seq<seq<Row>>)
    requires forall k :: 0 <= k < |bs| ==> bs[k] != []
    ensures forall k :: 0 <= k < |kept| ==> kept[k] != [] && kept[k] in bs
  {
    if bs == [] then []
    else
      var kept := FirstWins(bs[..|bs| - 1]);
      var b := bs[|bs| - 1];
      if Key(b) in Keys(kept) then kept else kept + [b]
  }

  /** The saved keys are distinct, and every bin's key is saved. */
  lemma {:induction false} FirstWinsKeys(bs: seq<seq<Row>>)
    requires forall k :: 0 <= k < |bs| ==> bs[k] != []
    ensures var ks := Keys(FirstWins(bs));
            forall i, j :: 0 <= i < j < |ks| ==> ks[i] != ks[j]
    ensures forall k :: 0 <= k < |bs| ==> Key(bs[k]) in Keys(FirstWins(bs))
    decreases |bs|
  {
    if bs != [] {
      var init := bs[..|bs| - 1];
      FirstWinsKeys(init);
      var kept := FirstWins(init);
      var kk := Keys(kept);
      assert Keys(FirstWins(init)) == kk;
      assert forall i, j :: 0 <= i < j < |kk| ==> kk[i] != kk[j];
      var b := bs[|bs| - 1];
      if Key(b) in Keys(kept) {
        assert FirstWins(bs) == kept;
      } else {
        assert FirstWins(bs) == kept + [b];
        var ks := Keys(kept + [b]);
        assert ks == Keys(kept) + [Key(b)];
        forall i, j | 0 <= i < j < |ks|
          ensures ks[i] != ks[j]
        {
          if j == |ks| - 1 {
            assert ks[i] == kk[i] && kk[i] in kk;
          } else {
            assert ks[i] == kk[i] && ks[j] == kk[j];
          }
        }
      }
      forall k | 0 <= k < |bs|
        ensures Key(bs[k]) in Keys(FirstWins(bs))
      {
        if k < |bs| - 1 {
          assert bs[k] == init[k];
          assert Key(init[k]) in Keys(kept);
        }
      }
    }
  }

  /** The first bin of the list is always kept, as the first saved. */
  lemma FirstWinsHead(bs: seq<seq<Row>>)
    requires forall k :: 0 <= k < |bs| ==> bs[k] != []
    requires bs != []
    ensures FirstWins(bs) != [] && FirstWins(bs)[0] == bs[0]
    decreases |bs|
  {
    if |bs| > 1 {
      FirstWinsHead(bs[..|bs| - 1]);
      assert bs[..|bs| - 1][0] == bs[0];
    } else {
      assert bs[..0] == [];
    }
  }

  /** Bin k of `bs` is the first of its key: no earlier bin of the input
      has the same key. */
  predicate FirstOfKey(bs: seq<seq<Row>>, k: int)
    requires forall k :: 0 <= k < |bs| ==> bs[k] != []
    requires 0 <= k < |bs|
  {
    forall j :: 0 <= j < k ==> Key(bs[j]) != Key(bs[k])
  }

  /** The positions among the first n bins that are the first of their key,
      in increasing order: the reference for which bins are saved. */
  function FirstIndices(bs: seq<seq<Row>>, n: nat): (idx: seq<nat>)
    requires forall k :: 0 <= k < |bs| ==> bs[k] != []
    requires n <= |bs|
    ensures forall i, j :: 0 <= i < j < |idx| ==> idx[i] < idx[j]
    ensures forall i :: 0 <= i < |idx| ==> idx[i] < n
    ensures forall k :: 0 <= k < n ==> (k in idx <==> FirstOfKey(bs, k))
  {
    if n == 0 then []
    else FirstIndices(bs, n - 1) + (if FirstOfKey(bs, n - 1) then [n - 1] else [])
  }

  /** Every key met among the first j + 1 bins is met first at a position
      that is the first of its key. */
  lemma {:induction false} EarliestOfKey(bs: seq<seq<Row>>, j: nat) returns (j0: nat)
    requires forall k :: 0 <= k < |bs| ==> bs[k] != []
    requires j < |bs|
    ensures j0 <= j && FirstOfKey(bs, j0) && Key(bs[j0]) == Key(bs[j])
    decreases j
  {
    if FirstOfKey(bs, j) {
      j0 := j;
    } else {
      var i :| 0 <= i < j && Key(bs[i]) == Key(bs[j]);
      j0 := EarliestOfKey(bs, i);
    }
  }

  /** The step of FirstWinsSelects: with the first n - 1 bins selected by
      position, bin n - 1's key is already kept exactly when an earlier bin
      has it. */
  lemma KeptKeyIffNotFirst(bs: seq<seq<Row>>, n: nat, kept: seq<seq<Row>>)
    requires forall k :: 0 <= k < |bs| ==> bs[k] != []
    requires 0 < n <= |bs|
    requires forall i :: 0 <= i < |kept| ==> kept[i] != []
    requires |kept| == |FirstIndices(bs, n - 1)|
    requires forall i :: 0 <= i < |kept| ==> kept[i] == bs[FirstIndices(bs, n - 1)[i]]
    ensures Key(bs[n - 1]) in Keys(kept) <==> !FirstOfKey(bs, n - 1)
  {
    var idx := FirstIndices(bs, n - 1);
    var b := bs[n - 1];
    if Key(b) in Keys(kept) {
      var i :| 0 <= i < |kept| && Keys(kept)[i] == Key(b);
      assert Key(bs[idx[i]]) == Key(b);
    }
    if !FirstOfKey(bs, n - 1) {
      var j :| 0 <= j < n - 1 && Key(bs[j]) == Key(b);
      var j0 := EarliestOfKey(bs, j);
      var i :| 0 <= i < |idx| && idx[i] == j0;
      assert Keys(kept)[i] == Key(b);
    }
  }

  /** First wins: the bins kept from the first n are exactly those at the
      positions that are the first of their key, in input order. */
  lemma {:induction false} FirstWinsSelects(bs: seq<seq<Row>>, n: nat)
    requires forall k :: 0 <= k < |bs| ==> bs[k] != []
    requires n <= |bs|
    ensures |FirstWins(bs[..n])| == |FirstIndices(bs, n)|
    ensures forall i :: 0 <= i < |FirstIndices(bs, n)| ==> FirstWins(bs[..n])[i] == bs[FirstIndices(bs, n)[i]]
    decreases n
  {
    if n > 0 {
      FirstWinsSelects(bs, n - 1);
      var kept := FirstWins(bs[..n - 1]);
      KeptKeyIffNotFirst(bs, n, kept);
      assert bs[..n][..n - 1] == bs[..n - 1];
      assert bs[..n][n - 1] == bs[n - 1];
    }
  }

  /** The saving loop over one direction: skip a bin whose key is already
      done (printing a warning), otherwise save it and mark its key done. */
  method SaveFirstPerKey(bs: seq<seq<Row>>) returns (saved: seq<seq<Row>>, warnings: nat)
    requires forall k :: 0 <= k < |bs| ==> bs[k] != []
    ensures saved == FirstWins(bs)
    ensures |saved| + warnings == |bs|
  {
    var done: seq<int> := [];
    saved := [];
    warnings := 0;
    for i := 0 to |bs|
      invariant saved == FirstWins(bs[..i]) && done == Keys(saved)
      invariant |saved| + warnings == i
    {
      var v := Key(bs[i]);
      assert bs[..i + 1][..i] == bs[..i];
      if v in done {
        warnings := warnings + 1;
        continue;
      }
      done := done + [v];
      saved := saved + [bs[i]];
    }
    assert bs[..|bs|] == bs;
  }

  /** One file save_bins writes: its kind ('a', 'd', 'f' or 'l'), the
      whole-volt key in its name, and the bin. */
  datatype Saved = Saved(kind: char, key: int, bin: seq<Row>)

  function Tagged(kind: char, bs: seq<seq<Row>>): (ss: seq<Saved>)
    requires forall k :: 0 <= k < |bs| ==> bs[k] != []
    ensures |ss| == |bs|
    ensures forall k :: 0 <= k < |bs| ==> ss[k] == Saved(kind, Key(bs[k]), bs[k])
  {
    seq(|bs|, k requires 0 <= k < |bs| => Saved(kind, Key(bs[k]), bs[k]))
  }

  /** save_bins(save_fl): bin the log dropping the first sample of each bin,
      save the first ascending and the first descending bin of each key,
      and with save_fl also the first and last bins, both named after the
      first bin's voltage.  `written` lists the files saved, including those
      saved before save_fl fails on an empty first bin. */
  method SaveBins(rows: seq<Row>, saveFl: bool) returns (written: seq<Saved>, r: Result<(), BinFault>)
    ensures rows == [] ==> r == Err(EmptyLog) && written == []
    ensures rows != [] && Discard(BinsOf(rows)).Err? ==> r == Err(NoFirstBin) && written == []
    ensures rows != [] && Discard(BinsOf(rows)).Ok? ==>
              var b := Discard(BinsOf(rows)).value;
              && (r.Err? <==> saveFl && b.first.value == [])
              && (r.Err? ==> r.fault == EmptyBin)
              && written == Tagged('a', FirstWins(b.asc)) + Tagged('d', FirstWins(b.desc))
                            + (if saveFl && b.first.value != [] then [Saved('f', Key(b.first.value), b.first.value),
                                                                      Saved('l', Key(b.first.value), b.last)] else [])
  {
    var bins, _ := MakeBins(rows, true);
    if bins.Err? {
      return [], Err(bins.fault);
    }
    var b := bins.value;
    assert b == Discard(BinsOf(rows)).value;
    var a, _ := SaveFirstPerKey(b.asc);
    var d, _ := SaveFirstPerKey(b.desc);
    written := Tagged('a', a) + Tagged('d', d);
    if saveFl {
      if b.first.value == [] {
        return written, Err(EmptyBin);
      }
      var key := Key(b.first.value);
      written := written + [Saved('f', key, b.first.value), Saved('l', key, b.last)];
    }
    r := Ok(());
  }
}
