/** Comparative analysis of the hardware (FPGA) and software implementations
    of the vector processor: the cycle-count timing model of the hardware,
    speedup, throughput and energy efficiency per operation, and the two
    headline aggregates of the report (mean speedup, largest ratios).

    All quantities are exact `real`s; the program computes them in binary
    floating point. */
module HwSwAnalysis {

  /** The operation names, in the order the software-time table lists them. */
  const Ops: seq<string> := ["soma", "subtracao", "produto_escalar"]

  /** The analyzer's configuration and the hardware timings derived from it.
      Nothing updates it after construction. */
  datatype Analyzer = Analyzer(
    fmaxRestrictedMhz: real,          // operating clock frequency, MHz
    clockPeriodNs: real,              // clock period, ns
    cycles: map<string, int>,         // clock cycles per operation (FSM path length)
    hwTimeNs: map<string, real>,      // hardware latency per operation, ns
    hwTimeUs: map<string, real>,      // hardware latency per operation, µs
    swTimeUs: map<string, real>,      // measured software latency per operation, µs
    hwPowerMw: real,                  // hardware power, mW
    swPowerW: real)                   // software power, W

  // ---------------------------------------------------------------------------
  // Hardware timing model
  // ---------------------------------------------------------------------------

  /** The clock period in ns of a clock of fMhz MHz. */
  function ClockPeriodNs(fMhz: real): (p: real)
    requires fMhz > 0.0
    ensures p > 0.0
    ensures p * fMhz == 1000.0
  {
    1000.0 / fMhz
  }

  /** Latency in ns of each operation: its cycle count times the period. */
  function CyclesToNs(cycles: map<string, int>, periodNs: real): map<string, real>
  {
    map op | op in cycles :: cycles[op] as real * periodNs
  }

  /** The same latencies converted from ns to µs. */
  function NsToUs(t: map<string, real>): map<string, real>
  {
    map op | op in t :: t[op] / 1000.0
  }

  /** Closed form of the hardware latency: `cycles` cycles of a clock of
      fMhz MHz take cycles / fMhz µs. */
  function LatencyUs(cycles: int, fMhz: real): (t: real)
    requires fMhz > 0.0
    ensures t * fMhz == cycles as real
    ensures cycles > 0 ==> t > 0.0
  {
    cycles as real / fMhz
  }

  /** Cycles times the period, converted from ns to µs, is the closed form. */
  lemma PeriodTimesCyclesInUs(c: int, fMhz: real)
    requires fMhz > 0.0
    ensures (c as real * ClockPeriodNs(fMhz)) / 1000.0 == LatencyUs(c, fMhz)
  {
    var p := ClockPeriodNs(fMhz);
    var x := c as real;
    MulDivComm(x * p, fMhz, 1000.0);
    assert p * fMhz == 1000.0;
    assert (x * p) * fMhz == x * (p * fMhz) == x * 1000.0;
    assert ((x * p) * fMhz) / 1000.0 == x;
    assert LatencyUs(c, fMhz) * fMhz == x;
    MulCancel((x * p) / 1000.0, LatencyUs(c, fMhz), fMhz);
  }

  /** The analyzer's constructor, with the program's constants abstracted as
      parameters: every hardware latency is its closed form, and the ns
      table is the µs table scaled by 1000. */
  function NewAnalyzer(fMhz: real, cycles: map<string, int>, swTimeUs: map<string, real>,
                       hwPowerMw: real, swPowerW: real): (a: Analyzer)
    requires fMhz > 0.0
    ensures a.fmaxRestrictedMhz == fMhz && a.clockPeriodNs * fMhz == 1000.0
    ensures a.cycles == cycles && a.swTimeUs == swTimeUs
    ensures a.hwPowerMw == hwPowerMw && a.swPowerW == swPowerW
    ensures a.hwTimeNs.Keys == cycles.Keys && a.hwTimeUs.Keys == cycles.Keys
    ensures forall op :: op in cycles ==> a.hwTimeUs[op] == LatencyUs(cycles[op], fMhz)
    ensures forall op :: op in cycles ==> a.hwTimeNs[op] == 1000.0 * a.hwTimeUs[op]
  {
    var period := ClockPeriodNs(fMhz);
    var ns := CyclesToNs(cycles, period);
    var us := NsToUs(ns);
    assert ns.Keys == cycles.Keys && us.Keys == cycles.Keys;
    forall op | op in cycles
      ensures us[op] == LatencyUs(cycles[op], fMhz)
      ensures ns[op] == 1000.0 * us[op]
    {
      assert ns[op] == cycles[op] as real * period;
      assert us[op] == ns[op] / 1000.0;
      PeriodTimesCyclesInUs(cycles[op], fMhz);
      ThousandthScaledBack(ns[op]);
    }
    Analyzer(fMhz, period, cycles, ns, us, swTimeUs, hwPowerMw, swPowerW)
  }

  /** Cycle counts of the hardware FSM: six states for add and subtract, nine
      for the dot product. */
  const FsmCycles: map<string, int> := map["soma" := 6, "subtracao" := 6, "produto_escalar" := 9]

  /** Measured software latencies, µs. */
  const MeasuredSwTimeUs: map<string, real> :=
    map["soma" := 2.365, "subtracao" := 2.268, "produto_escalar" := 1.469]

  /** The analyzer the program builds: 250 MHz, 50 mW for the FPGA, 15 W for
      the CPU. */
  function Fpga250MhzAnalyzer(): Analyzer
  {
    NewAnalyzer(250.0, FsmCycles, MeasuredSwTimeUs, 50.0, 15.0)
  }

  /** Halving the clock frequency doubles the clock period. */
  lemma HalvingFrequencyDoublesPeriod(fMhz: real)
    requires fMhz > 0.0
    ensures ClockPeriodNs(fMhz / 2.0) == 2.0 * ClockPeriodNs(fMhz)
  {
  }

  /** Latency is linear in the cycle count: doubling an operation's cycles
      doubles its latency. */
  lemma DoublingCyclesDoublesLatency(fMhz: real, cycles: map<string, int>, op: string,
                                     swTimeUs: map<string, real>, hwPowerMw: real, swPowerW: real)
    requires fMhz > 0.0 && op in cycles
    ensures NewAnalyzer(fMhz, cycles[op := 2 * cycles[op]], swTimeUs, hwPowerMw, swPowerW).hwTimeUs[op]
            == 2.0 * NewAnalyzer(fMhz, cycles, swTimeUs, hwPowerMw, swPowerW).hwTimeUs[op]
  {
    var c := cycles[op];
    assert LatencyUs(2 * c, fMhz) * fMhz == 2.0 * c as real;
    DoubleOfProduct(LatencyUs(2 * c, fMhz), LatencyUs(c, fMhz), fMhz, c as real);
  }

  /** The timings at 250 MHz: a 4 ns period, 0.024 µs for add and subtract and
      0.036 µs for the dot product. */
  lemma Fpga250MhzTimings()
    ensures Fpga250MhzAnalyzer().clockPeriodNs == 4.0
    ensures Fpga250MhzAnalyzer().hwTimeNs == map["soma" := 24.0, "subtracao" := 24.0, "produto_escalar" := 36.0]
    ensures Fpga250MhzAnalyzer().hwTimeUs == map["soma" := 0.024, "subtracao" := 0.024, "produto_escalar" := 0.036]
  {
    var a := Fpga250MhzAnalyzer();
    assert a.hwTimeUs.Keys == {"soma", "subtracao", "produto_escalar"};
    assert a.hwTimeUs["soma"] * 250.0 == 6.0;
    assert a.hwTimeUs["subtracao"] * 250.0 == 6.0;
    assert a.hwTimeUs["produto_escalar"] * 250.0 == 9.0;
  }

  // ---------------------------------------------------------------------------
  // Preconditions of the metric loops
  // ---------------------------------------------------------------------------

  /** Every operation of the software table has a non-zero hardware latency,
      so calcular_speedup neither misses a key nor divides by zero. */
  predicate HwCoversSw(a: Analyzer)
  {
    forall op :: op in a.swTimeUs ==> op in a.hwTimeUs && a.hwTimeUs[op] != 0.0
  }

  /** No software latency is zero. */
  predicate SwNonZero(a: Analyzer)
  {
    forall op :: op in a.swTimeUs ==> a.swTimeUs[op] != 0.0
  }

  /** Neither power figure is zero. */
  predicate PowersNonZero(a: Analyzer)
  {
    a.hwPowerMw != 0.0 && a.swPowerW != 0.0
  }

  /** The cycle table and the software table have the same three keys, every
      latency is positive, and all three metric loops are well defined. */
  lemma Fpga250MhzAnalyzerWellFormed()
    ensures Fpga250MhzAnalyzer().cycles.Keys == Fpga250MhzAnalyzer().swTimeUs.Keys
    ensures Fpga250MhzAnalyzer().swTimeUs.Keys == set op | op in Ops
    ensures forall op :: op in Ops ==> Fpga250MhzAnalyzer().hwTimeUs[op] > 0.0 && Fpga250MhzAnalyzer().swTimeUs[op] > 0.0
    ensures HwCoversSw(Fpga250MhzAnalyzer()) && SwNonZero(Fpga250MhzAnalyzer()) && PowersNonZero(Fpga250MhzAnalyzer())
  {
    Fpga250MhzTimings();
    assert Fpga250MhzAnalyzer().swTimeUs.Keys == {"soma", "subtracao", "produto_escalar"};
  }

  // ---------------------------------------------------------------------------
  // Metrics of one operation
  // ---------------------------------------------------------------------------

  /** How many times faster the hardware is. */
  function Speedup(hwUs: real, swUs: real): (s: real)
    requires hwUs != 0.0
    ensures s * hwUs == swUs
    ensures hwUs > 0.0 && swUs > hwUs ==> s > 1.0
  {
    swUs / hwUs
  }

  /** Operations per second at a latency of latencyUs µs. */
  function Throughput(latencyUs: real): (t: real)
    requires latencyUs != 0.0
    ensures t * latencyUs == 1000000.0
    ensures latencyUs > 0.0 ==> t > 0.0
  {
    1000000.0 / latencyUs
  }

  /** Joules per operation at powerW watts and latencyUs µs. */
  function EnergyJ(powerW: real, latencyUs: real): real
  {
    powerW * (latencyUs / 1000000.0)
  }

  /** Operations per joule. */
  function Efficiency(powerW: real, latencyUs: real): (e: real)
    requires powerW != 0.0 && latencyUs != 0.0
    ensures e * EnergyJ(powerW, latencyUs) == 1.0
  {
    assert EnergyJ(powerW, latencyUs) != 0.0 by {
      assert latencyUs / 1000000.0 != 0.0;
    }
    1.0 / EnergyJ(powerW, latencyUs)
  }

  /** A per-operation metric for each side, as the program's nested
      {'hardware': ..., 'software': ...} dictionaries. */
  datatype SideMetrics = SideMetrics(hardware: map<string, real>, software: map<string, real>)

  function SpeedupMap(a: Analyzer): map<string, real>
    requires HwCoversSw(a)
  {
    map op | op in a.swTimeUs :: Speedup(a.hwTimeUs[op], a.swTimeUs[op])
  }

  function ThroughputMetrics(a: Analyzer): SideMetrics
    requires HwCoversSw(a) && SwNonZero(a)
  {
    SideMetrics(map op | op in a.swTimeUs :: Throughput(a.hwTimeUs[op]),
                map op | op in a.swTimeUs :: Throughput(a.swTimeUs[op]))
  }

  function EfficiencyMetrics(a: Analyzer): SideMetrics
    requires HwCoversSw(a) && SwNonZero(a) && PowersNonZero(a)
  {
    SideMetrics(map op | op in a.swTimeUs :: Efficiency(a.hwPowerMw / 1000.0, a.hwTimeUs[op]),
                map op | op in a.swTimeUs :: Efficiency(a.swPowerW, a.swTimeUs[op]))
  }

  // ---------------------------------------------------------------------------
  // The three metric loops
  // ---------------------------------------------------------------------------

  /** calcular_speedup: fills an empty dictionary with sw / hw for every
      operation of the software table. */
  method ComputeSpeedup(a: Analyzer) returns (speedup: map<string, real>)
    requires HwCoversSw(a)
    ensures speedup.Keys == a.swTimeUs.Keys
    ensures speedup == SpeedupMap(a)
  {
    speedup := map[];
    var pending := a.swTimeUs.Keys;
    while pending != {}
      invariant pending <= a.swTimeUs.Keys
      invariant speedup.Keys == a.swTimeUs.Keys - pending
      invariant forall op :: op in speedup ==> speedup[op] == Speedup(a.hwTimeUs[op], a.swTimeUs[op])
      decreases pending
    {
      var op :| op in pending;
      speedup := speedup[op := a.swTimeUs[op] / a.hwTimeUs[op]];
      pending := pending - {op};
    }
  }

  /** calcular_throughput: 1e6 / latency on each side, for every operation
      of the software table. */
  method ComputeThroughput(a: Analyzer) returns (throughput: SideMetrics)
    requires HwCoversSw(a) && SwNonZero(a)
    ensures throughput.hardware.Keys == a.swTimeUs.Keys && throughput.software.Keys == a.swTimeUs.Keys
    ensures throughput == ThroughputMetrics(a)
  {
    var hw: map<string, real> := map[];
    var sw: map<string, real> := map[];
    var pending := a.swTimeUs.Keys;
    while pending != {}
      invariant pending <= a.swTimeUs.Keys
      invariant hw.Keys == a.swTimeUs.Keys - pending && sw.Keys == hw.Keys
      invariant forall op :: op in hw ==> hw[op] == Throughput(a.hwTimeUs[op])
      invariant forall op :: op in sw ==> sw[op] == Throughput(a.swTimeUs[op])
      decreases pending
    {
      var op :| op in pending;
      hw := hw[op := 1000000.0 / a.hwTimeUs[op]];
      sw := sw[op := 1000000.0 / a.swTimeUs[op]];
      pending := pending - {op};
    }
    throughput := SideMetrics(hw, sw);
  }

  /** calcular_eficiencia_energetica: energy per operation is power times
      time (the hardware's power converted from mW to W), and efficiency is
      its reciprocal. */
  method ComputeEnergyEfficiency(a: Analyzer) returns (efficiency: SideMetrics)
    requires HwCoversSw(a) && SwNonZero(a) && PowersNonZero(a)
    ensures efficiency.hardware.Keys == a.swTimeUs.Keys && efficiency.software.Keys == a.swTimeUs.Keys
    ensures efficiency == EfficiencyMetrics(a)
  {
    var hw: map<string, real> := map[];
    var sw: map<string, real> := map[];
    var pending := a.swTimeUs.Keys;
    while pending != {}
      invariant pending <= a.swTimeUs.Keys
      invariant hw.Keys == a.swTimeUs.Keys - pending && sw.Keys == hw.Keys
      invariant forall op :: op in hw ==> hw[op] == Efficiency(a.hwPowerMw / 1000.0, a.hwTimeUs[op])
      invariant forall op :: op in sw ==> sw[op] == Efficiency(a.swPowerW, a.swTimeUs[op])
      decreases pending
    {
      var op :| op in pending;
      var energyHw := (a.hwPowerMw / 1000.0) * (a.hwTimeUs[op] / 1000000.0);
      var energySw := a.swPowerW * (a.swTimeUs[op] / 1000000.0);
      assert energyHw == EnergyJ(a.hwPowerMw / 1000.0, a.hwTimeUs[op]);
      assert energySw == EnergyJ(a.swPowerW, a.swTimeUs[op]);
      hw := hw[op := 1.0 / energyHw];
      sw := sw[op := 1.0 / energySw];
      pending := pending - {op};
    }
    efficiency := SideMetrics(hw, sw);
  }

  // ---------------------------------------------------------------------------
  // Relations between the metrics
  // ---------------------------------------------------------------------------

  /** The report's throughput gain (hw Mops/s over sw Mops/s). */
  function ThroughputGain(t: SideMetrics, op: string): real
    requires op in t.hardware && op in t.software && t.software[op] != 0.0
  {
    (t.hardware[op] / 1000000.0) / (t.software[op] / 1000000.0)
  }

  /** The report's efficiency gain (hw ops/J over sw ops/J). */
  function EfficiencyGain(e: SideMetrics, op: string): real
    requires op in e.hardware && op in e.software && e.software[op] != 0.0
  {
    e.hardware[op] / e.software[op]
  }

  /** For every operation and each side, throughput times latency is 1e6. */
  lemma ThroughputTimesLatency(a: Analyzer, op: string)
    requires HwCoversSw(a) && SwNonZero(a) && op in a.swTimeUs
    ensures ThroughputMetrics(a).hardware[op] * a.hwTimeUs[op] == 1000000.0
    ensures ThroughputMetrics(a).software[op] * a.swTimeUs[op] == 1000000.0
  {
  }

  /** For one operation: the ratio of the two throughputs, each in Mops/s,
      is the speedup. */
  lemma ThroughputRatio(h: real, s: real)
    requires h != 0.0 && s != 0.0
    ensures Throughput(s) != 0.0
    ensures (Throughput(h) / 1000000.0) / (Throughput(s) / 1000000.0) == Speedup(h, s)
  {
    var th, ts := Throughput(h), Throughput(s);
    RatioOfInverses(th, h, ts, s, 1000000.0);
    ScaledRatio(th, ts, 1000000.0);
  }

  /** The throughput gain the report prints equals the speedup, which is why
      the largest speedup is the report's throughput headline. */
  lemma ThroughputGainIsSpeedup(a: Analyzer, op: string)
    requires HwCoversSw(a) && SwNonZero(a) && op in a.swTimeUs
    ensures ThroughputMetrics(a).software[op] != 0.0
    ensures ThroughputGain(ThroughputMetrics(a), op) == SpeedupMap(a)[op]
  {
    ThroughputRatio(a.hwTimeUs[op], a.swTimeUs[op]);
  }

  /** Software power over hardware power, both in W: how many joules the CPU
      spends for each joule the FPGA spends in the same time. */
  function PowerRatio(a: Analyzer): (r: real)
    requires a.hwPowerMw != 0.0
    ensures r * (a.hwPowerMw / 1000.0) == a.swPowerW
    ensures a.hwPowerMw > 0.0 && a.swPowerW > 0.0 ==> r > 0.0
  {
    1000.0 * a.swPowerW / a.hwPowerMw
  }

  /** With 15 W against 50 mW the power ratio is 300. */
  lemma Fpga250MhzPowerRatio()
    ensures Fpga250MhzAnalyzer().hwPowerMw != 0.0
    ensures PowerRatio(Fpga250MhzAnalyzer()) == 300.0
  {
    assert Fpga250MhzAnalyzer().hwPowerMw == 50.0 && Fpga250MhzAnalyzer().swPowerW == 15.0;
  }

  /** For one operation: the ratio of the two efficiencies is the ratio of
      the two energies, (P_sw · t_sw) / (P_hw · t_hw), which is the speedup
      times ps / ph. */
  lemma EfficiencyRatio(ph: real, h: real, ps: real, s: real)
    requires ph != 0.0 && h != 0.0 && ps != 0.0 && s != 0.0
    ensures Efficiency(ps, s) != 0.0
    ensures Efficiency(ph, h) / Efficiency(ps, s) == (ps * s) / (ph * h)
    ensures Efficiency(ph, h) / Efficiency(ps, s) == Speedup(h, s) * (ps / ph)
  {
    var eh, es := EnergyJ(ph, h), EnergyJ(ps, s);
    RatioOfInverses(Efficiency(ph, h), eh, Efficiency(ps, s), es, 1.0);
    // es / eh == (ps * s) / (ph * h): the 1e6 of both energies cancels.
    CrossRatio(ps, ph, s / 1000000.0, h / 1000000.0);
    ScaledRatio(s, h, 1000000.0);
    CrossRatio(ps, ph, s, h);
  }

  /** ps / (P_mW / 1000) is PowerRatio. */
  lemma PowerRatioInWatts(a: Analyzer)
    requires a.hwPowerMw != 0.0
    ensures a.swPowerW / (a.hwPowerMw / 1000.0) == PowerRatio(a)
  {
    ScaledRatio(1000.0 * a.swPowerW, a.hwPowerMw, 1000.0);
  }

  /** The efficiency gain is (P_sw · t_sw) / (P_hw · t_hw), that is, the
      speedup scaled by the ratio of the two powers. */
  lemma EfficiencyGainIsPowerScaledSpeedup(a: Analyzer, op: string)
    requires HwCoversSw(a) && SwNonZero(a) && PowersNonZero(a) && op in a.swTimeUs
    ensures EfficiencyMetrics(a).software[op] != 0.0
    ensures EfficiencyGain(EfficiencyMetrics(a), op)
            == (a.swPowerW * a.swTimeUs[op]) / ((a.hwPowerMw / 1000.0) * a.hwTimeUs[op])
    ensures EfficiencyGain(EfficiencyMetrics(a), op)
            == SpeedupMap(a)[op] * PowerRatio(a)
  {
    var ph := a.hwPowerMw / 1000.0;
    assert ph != 0.0;
    EfficiencyRatio(ph, a.hwTimeUs[op], a.swPowerW, a.swTimeUs[op]);
    PowerRatioInWatts(a);
    var e := EfficiencyMetrics(a);
    assert e.hardware[op] == Efficiency(ph, a.hwTimeUs[op]);
    assert e.software[op] == Efficiency(a.swPowerW, a.swTimeUs[op]);
    assert SpeedupMap(a)[op] == Speedup(a.hwTimeUs[op], a.swTimeUs[op]);
  }

  /** With the program's constants every speedup exceeds 1; for the sum it is
      2.365 / 0.024, about 98.54. */
  lemma MeasuredSpeedups()
    ensures HwCoversSw(Fpga250MhzAnalyzer())
    ensures SpeedupMap(Fpga250MhzAnalyzer())
            == map["soma" := 2.365 / 0.024, "subtracao" := 2.268 / 0.024, "produto_escalar" := 1.469 / 0.036]
    ensures forall op :: op in SpeedupMap(Fpga250MhzAnalyzer()) ==> SpeedupMap(Fpga250MhzAnalyzer())[op] > 1.0
    ensures 98.54 < SpeedupMap(Fpga250MhzAnalyzer())["soma"] < 98.55
  {
    Fpga250MhzAnalyzerWellFormed();
    Fpga250MhzTimings();
    var sp := SpeedupMap(Fpga250MhzAnalyzer());
    assert sp.Keys == {"soma", "subtracao", "produto_escalar"};
  }

  // ---------------------------------------------------------------------------
  // Aggregates of the report
  // ---------------------------------------------------------------------------

  function Sum(xs: seq<real>): real
  {
    if xs == [] then 0.0 else Sum(xs[..|xs| - 1]) + xs[|xs| - 1]
  }

  /** Arithmetic mean, as np.mean. */
  function Mean(xs: seq<real>): real
    requires |xs| > 0
  {
    Sum(xs) / |xs| as real
  }

  /** The largest element, as max. */
  function Max(xs: seq<real>): real
    requires |xs| > 0
  {
    if |xs| == 1 then xs[0]
    else
      var rest := Max(xs[1..]);
      if xs[0] >= rest then xs[0] else rest
  }

  /** No element exceeds the maximum. */
  lemma {:induction false} MaxIsUpperBound(xs: seq<real>)
    requires |xs| > 0
    ensures forall i :: 0 <= i < |xs| ==> xs[i] <= Max(xs)
  {
    if |xs| > 1 {
      MaxIsUpperBound(xs[1..]);
      assert forall i :: 1 <= i < |xs| ==> xs[i] == xs[1..][i - 1];
    }
  }

  /** The maximum is one of the elements. */
  lemma {:induction false} MaxIsElement(xs: seq<real>)
    requires |xs| > 0
    ensures exists i :: 0 <= i < |xs| && xs[i] == Max(xs)
  {
    if |xs| > 1 && xs[0] < Max(xs[1..]) {
      MaxIsElement(xs[1..]);
      var i :| 0 <= i < |xs[1..]| && xs[1..][i] == Max(xs[1..]);
      assert xs[i + 1] == Max(xs);
    } else {
      assert xs[0] == Max(xs);
    }
  }

  /** A bound that every element respects and one element attains is the
      maximum. */
  lemma MaxIsLeastUpperBound(xs: seq<real>, m: real, i: nat)
    requires i < |xs| && xs[i] == m
    requires forall j :: 0 <= j < |xs| ==> xs[j] <= m
    ensures Max(xs) == m
  {
    MaxIsElement(xs);
    MaxIsUpperBound(xs);
  }

  /** A sum of n terms is at most n times a bound of every term. */
  lemma {:induction false} SumAtMostCountTimesBound(xs: seq<real>, bound: real)
    requires forall i :: 0 <= i < |xs| ==> xs[i] <= bound
    ensures Sum(xs) <= |xs| as real * bound
  {
    if xs != [] {
      var init := xs[..|xs| - 1];
      assert forall i :: 0 <= i < |init| ==> init[i] == xs[i];
      SumAtMostCountTimesBound(init, bound);
    }
  }

  /** The mean of values that all respect a bound respects it too. */
  lemma MeanAtMostBound(xs: seq<real>, bound: real)
    requires |xs| > 0
    requires forall i :: 0 <= i < |xs| ==> xs[i] <= bound
    ensures Mean(xs) <= bound
  {
    SumAtMostCountTimesBound(xs, bound);
    DivAtMost(Sum(xs), |xs| as real, bound);
  }

  /** The mean never exceeds the maximum. */
  lemma MeanAtMostMax(xs: seq<real>)
    requires |xs| > 0
    ensures Mean(xs) <= Max(xs)
  {
    MaxIsUpperBound(xs);
    MeanAtMostBound(xs, Max(xs));
  }

  /** A sum of n terms each above 1 is above n. */
  lemma {:induction false} SumAboveCount(xs: seq<real>)
    requires |xs| > 0
    requires forall i :: 0 <= i < |xs| ==> xs[i] > 1.0
    ensures Sum(xs) > |xs| as real
  {
    if |xs| > 1 {
      var init := xs[..|xs| - 1];
      assert forall i :: 0 <= i < |init| ==> init[i] == xs[i];
      SumAboveCount(init);
    } else {
      assert xs[..0] == [];
    }
  }

  /** The mean of values all above 1 is above 1. */
  lemma MeanAboveOne(xs: seq<real>)
    requires |xs| > 0
    requires forall i :: 0 <= i < |xs| ==> xs[i] > 1.0
    ensures Mean(xs) > 1.0
  {
    SumAboveCount(xs);
    DivAbove(Sum(xs), |xs| as real);
  }

  /** When every element of ys is the image of the matching element of xs
      under a non-decreasing f, the largest of ys is the image of the largest
      of xs. */
  lemma MaxOfMonotoneImage(xs: seq<real>, ys: seq<real>, f: real -> real)
    requires |xs| == |ys| > 0
    requires forall x, y :: x <= y ==> f(x) <= f(y)
    requires forall i :: 0 <= i < |xs| ==> ys[i] == f(xs[i])
    ensures Max(ys) == f(Max(xs))
  {
    MaxIsElement(xs);
    var k :| 0 <= k < |xs| && xs[k] == Max(xs);
    MaxIsUpperBound(xs);
    MaxIsLeastUpperBound(ys, f(Max(xs)), k);
  }

  /** The values of a dictionary, listed in the given key order. */
  function ValuesInOrder(m: map<string, real>, keys: seq<string>): (vs: seq<real>)
    requires forall i :: 0 <= i < |keys| ==> keys[i] in m
    ensures |vs| == |keys|
    ensures forall i :: 0 <= i < |keys| ==> vs[i] == m[keys[i]]
  {
    seq(|keys|, i requires 0 <= i < |keys| => m[keys[i]])
  }

  /** The efficiency gains, listed in the given key order. */
  function EfficiencyGains(e: SideMetrics, keys: seq<string>): (gs: seq<real>)
    requires forall i :: 0 <= i < |keys| ==> keys[i] in e.hardware && keys[i] in e.software
    requires forall i :: 0 <= i < |keys| ==> e.software[keys[i]] != 0.0
    ensures |gs| == |keys|
    ensures forall i :: 0 <= i < |keys| ==> gs[i] == EfficiencyGain(e, keys[i])
  {
    seq(|keys|, i requires 0 <= i < |keys| => EfficiencyGain(e, keys[i]))
  }

  /** The three headline figures of the report's conclusions. */
  datatype Headlines = Headlines(meanSpeedup: real, maxThroughputGain: real, maxEfficiencyGain: real)

  /** What the report's summary needs of its dictionaries: `keys` is the
      dictionaries' key order, listing each key of the speedup table and of
      the hardware side of the efficiency table exactly once (so the mean
      and the maxima range over all their values), there is at least one,
      and the software side has every key with a non-zero value. */
  predicate HeadlineInputs(speedup: map<string, real>, efficiency: SideMetrics, keys: seq<string>)
  {
    && |keys| > 0
    && (forall i, j :: 0 <= i < j < |keys| ==> keys[i] != keys[j])
    && (set i | 0 <= i < |keys| :: keys[i]) == speedup.Keys
    && (set i | 0 <= i < |keys| :: keys[i]) == efficiency.hardware.Keys
    && (forall i :: 0 <= i < |keys| ==> keys[i] in speedup)
    && (forall i :: 0 <= i < |keys| ==> keys[i] in efficiency.hardware && keys[i] in efficiency.software)
    && (forall i :: 0 <= i < |keys| ==> efficiency.software[keys[i]] != 0.0)
  }

  /** The report's headline arithmetic over dictionaries whose key order is
      `keys`: the mean of the speedups, the largest speedup (reported as the
      throughput gain) and the largest efficiency gain. */
  function ReportHeadlines(speedup: map<string, real>, efficiency: SideMetrics, keys: seq<string>): (h: Headlines)
    requires HeadlineInputs(speedup, efficiency, keys)
    ensures h.meanSpeedup <= h.maxThroughputGain
    ensures forall i :: 0 <= i < |keys| ==> speedup[keys[i]] <= h.maxThroughputGain
    ensures forall i :: 0 <= i < |keys| ==> EfficiencyGain(efficiency, keys[i]) <= h.maxEfficiencyGain
  {
    var speedups := ValuesInOrder(speedup, keys);
    var gains := EfficiencyGains(efficiency, keys);
    MeanAtMostMax(speedups);
    MaxIsUpperBound(speedups);
    MaxIsUpperBound(gains);
    Headlines(Mean(speedups), Max(speedups), Max(EfficiencyGains(efficiency, keys)))
  }

  /** The headline maxima bound the figure of every operation in the
      dictionaries, not only of those the key list names. */
  lemma HeadlinesBoundEveryOperation(speedup: map<string, real>, efficiency: SideMetrics, keys: seq<string>)
    requires HeadlineInputs(speedup, efficiency, keys)
    ensures forall op :: op in speedup ==> speedup[op] <= ReportHeadlines(speedup, efficiency, keys).maxThroughputGain
    ensures forall op :: op in efficiency.hardware ==>
              op in efficiency.software && efficiency.software[op] != 0.0
              && EfficiencyGain(efficiency, op) <= ReportHeadlines(speedup, efficiency, keys).maxEfficiencyGain
  {
    var h := ReportHeadlines(speedup, efficiency, keys);
    forall op | op in speedup
      ensures speedup[op] <= h.maxThroughputGain
    {
      assert op in (set i | 0 <= i < |keys| :: keys[i]);
      var i :| 0 <= i < |keys| && keys[i] == op;
    }
    forall op | op in efficiency.hardware
      ensures op in efficiency.software && efficiency.software[op] != 0.0
      ensures EfficiencyGain(efficiency, op) <= h.maxEfficiencyGain
    {
      assert op in (set i | 0 <= i < |keys| :: keys[i]);
      var i :| 0 <= i < |keys| && keys[i] == op;
    }
  }

  /** Each headline maximum is attained by one of the operations. */
  lemma HeadlinesAttained(speedup: map<string, real>, efficiency: SideMetrics, keys: seq<string>)
    requires HeadlineInputs(speedup, efficiency, keys)
    ensures var h := ReportHeadlines(speedup, efficiency, keys);
            && (exists i :: 0 <= i < |keys| && h.maxThroughputGain == speedup[keys[i]])
            && (exists i :: 0 <= i < |keys| && h.maxEfficiencyGain == EfficiencyGain(efficiency, keys[i]))
  {
    MaxIsElement(ValuesInOrder(speedup, keys));
    MaxIsElement(EfficiencyGains(efficiency, keys));
  }

  /** When every efficiency gain is f of the speedup, for a non-decreasing
      f, the largest gain is f of the largest speedup. */
  lemma MaxGainScales(speedup: map<string, real>, efficiency: SideMetrics, keys: seq<string>,
                      f: real -> real)
    requires HeadlineInputs(speedup, efficiency, keys)
    requires forall x, y :: x <= y ==> f(x) <= f(y)
    requires forall i :: 0 <= i < |keys| ==> EfficiencyGain(efficiency, keys[i]) == f(speedup[keys[i]])
    ensures Max(EfficiencyGains(efficiency, keys)) == f(Max(ValuesInOrder(speedup, keys)))
  {
    var speedups := ValuesInOrder(speedup, keys);
    var gains := EfficiencyGains(efficiency, keys);
    forall i | 0 <= i < |keys|
      ensures gains[i] == f(speedups[i])
    {
      assert gains[i] == EfficiencyGain(efficiency, keys[i]);
      assert speedups[i] == speedup[keys[i]];
    }
    MaxOfMonotoneImage(speedups, gains, f);
  }

  /** When every efficiency gain is f of the speedup, for a non-decreasing
      f (the program's f multiplies by the power ratio), the efficiency
      headline is f of the throughput headline. */
  lemma HeadlinesScale(speedup: map<string, real>, efficiency: SideMetrics, keys: seq<string>,
                       f: real -> real)
    requires HeadlineInputs(speedup, efficiency, keys)
    requires forall x, y :: x <= y ==> f(x) <= f(y)
    requires forall i :: 0 <= i < |keys| ==> EfficiencyGain(efficiency, keys[i]) == f(speedup[keys[i]])
    ensures ReportHeadlines(speedup, efficiency, keys).maxEfficiencyGain
            == f(ReportHeadlines(speedup, efficiency, keys).maxThroughputGain)
  {
    MaxGainScales(speedup, efficiency, keys, f);
    HeadlineFields(speedup, efficiency, keys);
  }

  /** The program's dictionaries meet what the summary needs. */
  lemma MeasuredHeadlineInputs()
    ensures HwCoversSw(Fpga250MhzAnalyzer()) && SwNonZero(Fpga250MhzAnalyzer()) && PowersNonZero(Fpga250MhzAnalyzer())
    ensures HeadlineInputs(SpeedupMap(Fpga250MhzAnalyzer()), EfficiencyMetrics(Fpga250MhzAnalyzer()), Ops)
  {
    var a := Fpga250MhzAnalyzer();
    MeasuredEfficiencyGains();
    MeasuredSpeedupList();
    OpsListsTableKeys();
    assert SpeedupMap(a).Keys == a.swTimeUs.Keys;
    assert EfficiencyMetrics(a).hardware.Keys == a.swTimeUs.Keys;
  }

  /** Ops lists the software table's keys, each once. */
  lemma OpsListsTableKeys()
    ensures forall i, j :: 0 <= i < j < |Ops| ==> Ops[i] != Ops[j]
    ensures (set i | 0 <= i < |Ops| :: Ops[i]) == Fpga250MhzAnalyzer().swTimeUs.Keys
  {
    var listed := set i | 0 <= i < |Ops| :: Ops[i];
    assert Ops[0] in listed && Ops[1] in listed && Ops[2] in listed;
    assert listed == {"soma", "subtracao", "produto_escalar"};
    assert Fpga250MhzAnalyzer().swTimeUs.Keys == {"soma", "subtracao", "produto_escalar"};
  }

  /** With the program's constants the mean speedup exceeds 1 and the
      throughput headline is the speedup of the sum. */
  lemma MeasuredThroughputHeadline()
    ensures HwCoversSw(Fpga250MhzAnalyzer()) && SwNonZero(Fpga250MhzAnalyzer()) && PowersNonZero(Fpga250MhzAnalyzer())
    ensures HeadlineInputs(SpeedupMap(Fpga250MhzAnalyzer()), EfficiencyMetrics(Fpga250MhzAnalyzer()), Ops)
    ensures var h := ReportHeadlines(SpeedupMap(Fpga250MhzAnalyzer()), EfficiencyMetrics(Fpga250MhzAnalyzer()), Ops);
            1.0 < h.meanSpeedup && h.maxThroughputGain == SpeedupMap(Fpga250MhzAnalyzer())["soma"]
  {
    MeasuredHeadlineInputs();
    HeadlineFields(SpeedupMap(Fpga250MhzAnalyzer()), EfficiencyMetrics(Fpga250MhzAnalyzer()), Ops);
    MeasuredSpeedupList();
    MeasuredSpeedupAggregates();
    MeasuredSpeedups();
  }

  /** With the program's constants the efficiency headline is 300 times the
      throughput headline (15 W against 0.05 W). */
  lemma MeasuredEfficiencyHeadline()
    ensures HwCoversSw(Fpga250MhzAnalyzer()) && SwNonZero(Fpga250MhzAnalyzer()) && PowersNonZero(Fpga250MhzAnalyzer())
    ensures HeadlineInputs(SpeedupMap(Fpga250MhzAnalyzer()), EfficiencyMetrics(Fpga250MhzAnalyzer()), Ops)
    ensures var h := ReportHeadlines(SpeedupMap(Fpga250MhzAnalyzer()), EfficiencyMetrics(Fpga250MhzAnalyzer()), Ops);
            h.maxEfficiencyGain == 300.0 * h.maxThroughputGain
  {
    MeasuredHeadlineInputs();
    MeasuredEfficiencyGains();
    var times300 := x => 300.0 * x;
    assert forall i :: 0 <= i < |Ops| ==>
      EfficiencyGain(EfficiencyMetrics(Fpga250MhzAnalyzer()), Ops[i]) == times300(SpeedupMap(Fpga250MhzAnalyzer())[Ops[i]]);
    HeadlinesScale(SpeedupMap(Fpga250MhzAnalyzer()), EfficiencyMetrics(Fpga250MhzAnalyzer()), Ops, times300);
  }

  /** The report's conclusions with the program's constants: the mean speedup
      exceeds 1 and is at most the throughput headline, the throughput
      headline is the speedup of the sum, and the efficiency headline is 300
      times it. */
  lemma MeasuredHeadlines()
    ensures HwCoversSw(Fpga250MhzAnalyzer()) && SwNonZero(Fpga250MhzAnalyzer()) && PowersNonZero(Fpga250MhzAnalyzer())
    ensures HeadlineInputs(SpeedupMap(Fpga250MhzAnalyzer()), EfficiencyMetrics(Fpga250MhzAnalyzer()), Ops)
    ensures var h := ReportHeadlines(SpeedupMap(Fpga250MhzAnalyzer()), EfficiencyMetrics(Fpga250MhzAnalyzer()), Ops);
            && 1.0 < h.meanSpeedup <= h.maxThroughputGain
            && h.maxThroughputGain == SpeedupMap(Fpga250MhzAnalyzer())["soma"]
            && h.maxEfficiencyGain == 300.0 * h.maxThroughputGain
  {
    MeasuredThroughputHeadline();
    MeasuredEfficiencyHeadline();
  }

  /** Mean and maximum of the three measured speedups. */
  lemma MeasuredSpeedupAggregates()
    ensures Mean([2.365 / 0.024, 2.268 / 0.024, 1.469 / 0.036]) > 1.0
    ensures Max([2.365 / 0.024, 2.268 / 0.024, 1.469 / 0.036]) == 2.365 / 0.024
  {
    var xs := [2.365 / 0.024, 2.268 / 0.024, 1.469 / 0.036];
    MeanAboveOne(xs);
    MaxIsLeastUpperBound(xs, 2.365 / 0.024, 0);
  }

  /** The headline fields are the mean and maximum of the speedups and the
      maximum of the efficiency gains. */
  lemma HeadlineFields(speedup: map<string, real>, efficiency: SideMetrics, keys: seq<string>)
    requires HeadlineInputs(speedup, efficiency, keys)
    ensures ReportHeadlines(speedup, efficiency, keys).meanSpeedup == Mean(ValuesInOrder(speedup, keys))
    ensures ReportHeadlines(speedup, efficiency, keys).maxThroughputGain == Max(ValuesInOrder(speedup, keys))
    ensures ReportHeadlines(speedup, efficiency, keys).maxEfficiencyGain == Max(EfficiencyGains(efficiency, keys))
  {
  }

  /** The measured speedups in the table's order. */
  lemma MeasuredSpeedupList()
    ensures HwCoversSw(Fpga250MhzAnalyzer())
    ensures forall i :: 0 <= i < |Ops| ==> Ops[i] in SpeedupMap(Fpga250MhzAnalyzer())
    ensures ValuesInOrder(SpeedupMap(Fpga250MhzAnalyzer()), Ops) == [2.365 / 0.024, 2.268 / 0.024, 1.469 / 0.036]
  {
    MeasuredSpeedups();
  }

  /** With 15 W against 50 mW, every efficiency gain is 300 times the
      speedup. */
  lemma MeasuredEfficiencyGains()
    ensures HwCoversSw(Fpga250MhzAnalyzer()) && SwNonZero(Fpga250MhzAnalyzer()) && PowersNonZero(Fpga250MhzAnalyzer())
    ensures forall op :: op in Ops ==> op in Fpga250MhzAnalyzer().swTimeUs && EfficiencyMetrics(Fpga250MhzAnalyzer()).software[op] != 0.0
    ensures forall op :: op in Ops ==>
              EfficiencyGain(EfficiencyMetrics(Fpga250MhzAnalyzer()), op) == 300.0 * SpeedupMap(Fpga250MhzAnalyzer())[op]
  {
    var a := Fpga250MhzAnalyzer();
    Fpga250MhzAnalyzerWellFormed();
    Fpga250MhzPowerRatio();
    forall op | op in Ops
      ensures op in a.swTimeUs && EfficiencyMetrics(a).software[op] != 0.0
      ensures EfficiencyGain(EfficiencyMetrics(a), op) == 300.0 * SpeedupMap(a)[op]
    {
      EfficiencyGainIsPowerScaledSpeedup(a, op);
    }
  }

  // ---------------------------------------------------------------------------
  // Field identities over real, kept small so that each is solved alone
  // ---------------------------------------------------------------------------

  lemma MulDivComm(x: real, y: real, z: real)
    requires z != 0.0
    ensures (x / z) * y == (x * y) / z
  {
  }

  lemma MulCancel(x: real, y: real, z: real)
    requires z != 0.0 && x * z == y * z
    ensures x == y
  {
  }

  lemma DoubleOfProduct(x: real, y: real, z: real, c: real)
    requires z != 0.0 && x * z == 2.0 * c && y * z == c
    ensures x == 2.0 * y
  {
  }

  lemma ThousandthScaledBack(x: real)
    ensures 1000.0 * (x / 1000.0) == x
  {
  }

  lemma DivAtMost(x: real, n: real, m: real)
    requires n > 0.0 && x <= n * m
    ensures x / n <= m
  {
  }

  lemma DivAbove(x: real, n: real)
    requires n > 0.0 && x > n
    ensures x / n > 1.0
  {
  }

  lemma CrossRatio(a: real, b: real, c: real, d: real)
    requires b != 0.0 && d != 0.0
    ensures (a * c) / (b * d) == (a / b) * (c / d)
  {
  }

  /** Dividing numerator and denominator by the same k leaves a ratio as is. */
  lemma ScaledRatio(x: real, y: real, k: real)
    requires y != 0.0 && k != 0.0
    ensures (x / k) / (y / k) == x / y
  {
  }

  /** If x·hx and y·hy are the same non-zero k then x / y == hy / hx. */
  lemma RatioOfInverses(x: real, hx: real, y: real, hy: real, k: real)
    requires k != 0.0 && x * hx == k && y * hy == k
    ensures y != 0.0 && hx != 0.0 && x / y == hy / hx
  {
  }
}
