# Vector processor: software reference and hardware/software analysis

This project is a Dafny model of two Python benchmark programs that belong to a 4-lane vector processor built for an FPGA.

- **`VectorProcessorSw`** (`vector_processor_sw.dfy`) models `ProcessadorVetorialSW`, the software reference of the processor's ALU, and the `benchmark_operacao` driver:
  - `Saturate` clamps a value into the signed 8-bit range [-128, 127].
  - `VectorAdd` and `VectorSubtract` are lane-wise and saturating. Each fills a 4-element buffer one lane at a time.
  - `DotProduct` accumulates the four lane products and does not saturate.
  - `BenchmarkOperation` makes 100 discarded warm-up calls, then a timed loop. It returns the mean time per call in µs and the last result, or the error the Python code raises.
- **`HwSwAnalysis`** (`hw_sw_analysis.dfy`) models `AnalisadorDesempenho`:
  - The constructor derives the hardware latencies from the FSM cycle counts and the 250 MHz clock.
  - `ComputeSpeedup`, `ComputeThroughput` and `ComputeEnergyEfficiency` model the three metric loops. Each fills a dictionary over the keys of the software-time table.
  - `ReportHeadlines` models the report's conclusions: the mean speedup, the largest speedup (printed as the throughput gain) and the largest efficiency gain.

Every loop-based operation is a `method` whose postcondition ties its result to a specification function. The properties are lemmas about those functions:

- saturation bounds and boundary cases;
- int8 and int32 bounds of the dot product;
- throughput × latency = 1e6, and the throughput gain equals the speedup;
- the efficiency gain is the speedup scaled by the power ratio;
- the mean is at most the maximum, and each headline maximum is attained;
- the concrete figures of the program's configuration.

## Model

| member | source | states |
|---|---|---|
| VectorProcessorSw.Saturate | benchmarks/processador_vetorial_sw.py:24-42 | the result is always in [-128, 127]; it equals the input exactly when the input is in range; 127 above the range, -128 below |
| VectorProcessorSw.SaturateIdempotent | benchmarks/processador_vetorial_sw.py:27-42 | saturating a saturated value changes nothing |
| VectorProcessorSw.SaturateIsNearestLane | benchmarks/processador_vetorial_sw.py:27-42 | the saturated value is the int8 value closest to the input |
| VectorProcessorSw.SaturateMonotonic | benchmarks/processador_vetorial_sw.py:27-42 | saturation preserves the order of its inputs |
| VectorProcessorSw.VectorAdd | benchmarks/processador_vetorial_sw.py:44-59 | the 4-lane buffer filled in place holds the saturated lane-wise sums of lanes 0..3, and every lane is int8 |
| VectorProcessorSw.VectorSubtract | benchmarks/processador_vetorial_sw.py:61-76 | the 4-lane buffer holds the saturated lane-wise differences, and every lane is int8 |
| VectorProcessorSw.DotProduct | benchmarks/processador_vetorial_sw.py:78-93 | the accumulator ends as the sum of the four lane products (specification function `Dot`) |
| VectorProcessorSw.SaturatingAddLanes | benchmarks/processador_vetorial_sw.py:56-58 | lane i of the sum is 127 when a[i]+b[i] overflows, -128 when it underflows, a[i]+b[i] otherwise |
| VectorProcessorSw.SubtractSaturatesLow | benchmarks/processador_vetorial_sw.py:73-75 | (-128 x4) − (127 x4) saturates to (-128 x4) |
| VectorProcessorSw.LaneProductBounds | benchmarks/processador_vetorial_sw.py:91 | the product of two int8 lanes lies in [-16256, 16384] |
| VectorProcessorSw.DotPrefixBounds | benchmarks/processador_vetorial_sw.py:89-92 | after n lanes the accumulator lies in [-16256·n, 16384·n] |
| VectorProcessorSw.DotBounds | benchmarks/processador_vetorial_sw.py:78-93 | for int8 inputs the dot product lies in [-65024, 65536], inside the documented int32 range |
| VectorProcessorSw.DotNotSaturated | benchmarks/processador_vetorial_sw.py:89-93 | (127 x4)·(127 x4) = 64516, which is outside int8: the accumulator is not saturated |
| VectorProcessorSw.RunOnce | benchmarks/processador_vetorial_sw.py:126-131 | the dispatch returns the named operation's result, and returns one exactly when the name is soma, subtracao or produto_escalar |
| VectorProcessorSw.BenchmarkOperation | benchmarks/processador_vetorial_sw.py:96-137 | zero iterations raise the division error; negative iterations or an unknown name leave the result unbound; otherwise it returns the operation's result and a mean with mean·n = elapsed·1e6 |
| HwSwAnalysis.ClockPeriodNs | benchmarks/analise_hw_sw.py:30-31 | the period is positive and period × frequency = 1000 (ns·MHz) |
| HwSwAnalysis.LatencyUs | benchmarks/analise_hw_sw.py:41-50 | closed form of the hardware latency: latency × f = cycles, positive for a positive cycle count |
| HwSwAnalysis.PeriodTimesCyclesInUs | benchmarks/analise_hw_sw.py:41-50 | cycles × period in ns, divided by 1000, is cycles / f µs |
| HwSwAnalysis.NewAnalyzer | benchmarks/analise_hw_sw.py:25-70 | every hardware µs latency is cycles / f, the ns table is 1000 × the µs table, both cover the cycle table's keys, and the rest is as configured |
| HwSwAnalysis.HalvingFrequencyDoublesPeriod | benchmarks/analise_hw_sw.py:31 | halving the clock frequency doubles the period |
| HwSwAnalysis.DoublingCyclesDoublesLatency | benchmarks/analise_hw_sw.py:34-50 | doubling an operation's cycle count doubles its hardware latency |
| HwSwAnalysis.Fpga250MhzTimings | benchmarks/analise_hw_sw.py:29-50 | with 250 MHz and 6/6/9 cycles: a 4 ns period, 24/24/36 ns, 0.024/0.024/0.036 µs |
| HwSwAnalysis.Fpga250MhzAnalyzerWellFormed | benchmarks/analise_hw_sw.py:34-57 | the cycle and software tables have the same three keys, all latencies are positive, and none of the metric loops can miss a key or divide by zero |
| HwSwAnalysis.Speedup | benchmarks/analise_hw_sw.py:81 | speedup × hw latency = sw latency, and it exceeds 1 when the software is slower |
| HwSwAnalysis.Throughput | benchmarks/analise_hw_sw.py:94-96 | throughput × latency = 1e6 ops/s·µs, positive for a positive latency |
| HwSwAnalysis.Efficiency | benchmarks/analise_hw_sw.py:110-116 | efficiency × energy per operation = 1 |
| HwSwAnalysis.ComputeSpeedup | benchmarks/analise_hw_sw.py:72-82 | the dictionary has exactly the software table's keys, each mapped to sw / hw |
| HwSwAnalysis.ComputeThroughput | benchmarks/analise_hw_sw.py:84-98 | both sides have the software table's keys, each mapped to 1e6 / latency |
| HwSwAnalysis.ComputeEnergyEfficiency | benchmarks/analise_hw_sw.py:100-118 | both sides have the software table's keys, each mapped to 1 / (power × latency), with the hardware power converted from mW to W |
| HwSwAnalysis.ThroughputTimesLatency | benchmarks/analise_hw_sw.py:93-96 | on both sides of every operation, throughput × latency = 1e6 |
| HwSwAnalysis.ThroughputRatio | benchmarks/analise_hw_sw.py:192-194 | the ratio of the two throughputs in Mops/s is the speedup |
| HwSwAnalysis.ThroughputGainIsSpeedup | benchmarks/analise_hw_sw.py:192-194 | the throughput gain the report prints for an operation equals its speedup |
| HwSwAnalysis.EfficiencyRatio | benchmarks/analise_hw_sw.py:109-116 | the ratio of the two efficiencies is (P_sw·t_sw)/(P_hw·t_hw), that is, the speedup × P_sw/P_hw |
| HwSwAnalysis.PowerRatio | benchmarks/analise_hw_sw.py:111-112 | the ratio of the software power to the hardware power, both in W: ratio × (P_mW / 1000) = P_sw, positive when both powers are |
| HwSwAnalysis.Fpga250MhzPowerRatio | benchmarks/analise_hw_sw.py:69-70 | with 50 mW for the FPGA and 15 W for the CPU the ratio is 300 |
| HwSwAnalysis.EfficiencyGainIsPowerScaledSpeedup | benchmarks/analise_hw_sw.py:109-116 | the efficiency gain of an operation is the ratio of energies, equal to speedup × power ratio |
| HwSwAnalysis.MeasuredSpeedups | benchmarks/analise_hw_sw.py:53-57 | with the program's constants the speedups are 2.365/0.024, 2.268/0.024 and 1.469/0.036, all above 1, the sum's about 98.54 |
| HwSwAnalysis.MaxIsUpperBound | benchmarks/analise_hw_sw.py:228-229 | no element exceeds `max` |
| HwSwAnalysis.MaxIsElement | benchmarks/analise_hw_sw.py:228-229 | `max` is one of the elements |
| HwSwAnalysis.MaxIsLeastUpperBound | benchmarks/analise_hw_sw.py:228-229 | a bound that every element respects and one attains is `max` |
| HwSwAnalysis.MeanAtMostBound | benchmarks/analise_hw_sw.py:181 | the mean of values that all respect a bound respects it |
| HwSwAnalysis.MeanAtMostMax | benchmarks/analise_hw_sw.py:181 | the mean never exceeds the maximum |
| HwSwAnalysis.SumAtMostCountTimesBound | benchmarks/analise_hw_sw.py:181 | a sum of n terms is at most n times a common upper bound |
| HwSwAnalysis.SumAboveCount | benchmarks/analise_hw_sw.py:181 | a sum of n terms each above 1 is above n |
| HwSwAnalysis.MeanAboveOne | benchmarks/analise_hw_sw.py:181 | the mean of values each above 1 is above 1 |
| HwSwAnalysis.MaxOfMonotoneImage | benchmarks/analise_hw_sw.py:228-229 | the maximum of the images under a non-decreasing map is the image of the maximum |
| HwSwAnalysis.ReportHeadlines | benchmarks/analise_hw_sw.py:181-229 | over a key order that lists every key of the dictionaries exactly once: the mean speedup is at most the throughput headline, no speedup exceeds the throughput headline and no efficiency gain exceeds the efficiency headline |
| HwSwAnalysis.HeadlinesBoundEveryOperation | benchmarks/analise_hw_sw.py:228-229 | no speedup of any key of the speedup table exceeds the throughput headline, and no efficiency gain of any key of the hardware efficiency table exceeds the efficiency headline |
| HwSwAnalysis.HeadlinesAttained | benchmarks/analise_hw_sw.py:228-229 | each headline maximum is the figure of some operation |
| HwSwAnalysis.MaxGainScales | benchmarks/analise_hw_sw.py:228-229 | if every efficiency gain is f(speedup) for a non-decreasing f, the largest gain is f(largest speedup) |
| HwSwAnalysis.HeadlinesScale | benchmarks/analise_hw_sw.py:228-229 | with the same hypothesis, the efficiency headline is f(throughput headline) |
| HwSwAnalysis.MeasuredSpeedupList | benchmarks/analise_hw_sw.py:177-181 | the measured speedups in table order are [2.365/0.024, 2.268/0.024, 1.469/0.036] |
| HwSwAnalysis.MeasuredSpeedupAggregates | benchmarks/analise_hw_sw.py:181-228 | the mean of those speedups exceeds 1 and their maximum is the sum's speedup |
| HwSwAnalysis.MeasuredEfficiencyGains | benchmarks/analise_hw_sw.py:69-116 | with 15 W against 50 mW every efficiency gain is 300 × the speedup |
| HwSwAnalysis.OpsListsTableKeys | benchmarks/analise_hw_sw.py:53-57 | the list soma, subtracao, produto_escalar names each key of the software table exactly once |
| HwSwAnalysis.MeasuredHeadlineInputs | benchmarks/analise_hw_sw.py:127-129 | the program's three dictionaries, in the order soma, subtracao, produto_escalar, meet what the summary needs: every key listed once and every software efficiency non-zero |
| HwSwAnalysis.MeasuredThroughputHeadline | benchmarks/analise_hw_sw.py:181-228 | with the program's constants the mean speedup exceeds 1 and the throughput headline is the sum's speedup |
| HwSwAnalysis.MeasuredEfficiencyHeadline | benchmarks/analise_hw_sw.py:229 | with the program's constants the efficiency headline is 300 × the throughput headline |
| HwSwAnalysis.MeasuredHeadlines | benchmarks/analise_hw_sw.py:181-229 | the report's conclusions: 1 < mean speedup ≤ throughput headline = the sum's speedup, and efficiency headline = 300 × throughput headline |

## Left out

- Printing, `main`, plotting with matplotlib and the text layout of `gerar_relatorio_texto` are not modelled. Only the mean and maximum arithmetic of the report is.
- `time.perf_counter` is not modelled. `BenchmarkOperation` takes the elapsed time of the timed loop as a parameter. The code does not check that this time is positive, so neither does the model.
- Floating point is not modelled. All analysis quantities are exact reals, so rounding, `inf` and the report's `:.2f` formatting are absent.
- NumPy arrays are not modelled. Vectors are sequences of unbounded integers, which matches `int(vec_a[i])` in Python. The `np.int8` buffer never wraps, because every stored value is already saturated.
- VectorProcessorSw.VectorAdd, VectorSubtract, DotProduct: they require at least four lanes. With a shorter array the Python code raises `IndexError`, and that error path is not modelled. Lanes beyond the fourth are ignored, as in the Python code.
- VectorProcessorSw.Apply, RunOnce, BenchmarkOperation: they require four lanes only for a known operation name. Those are the calls that read the lanes. `IndexError` for a known name with short vectors is not modelled. An unknown name is accepted with vectors of any length, and it gives the division error or the unbound result as in the Python code.
- VectorProcessorSw.BenchmarkOperation: the default of 1000000 iterations for `num_iteracoes` is not modelled. Dafny callers always pass the count.
- The constructor's constants are not modelled as fixed. `NewAnalyzer` takes the frequency, cycle table, software times and powers as parameters, and `Fpga250MhzAnalyzer` applies it to the program's values. `hw_fmax` (964.32 MHz) and `hw_recursos` are not modelled, because no computation reads them.
- HwSwAnalysis.ComputeSpeedup, ComputeThroughput, ComputeEnergyEfficiency: their preconditions (`HwCoversSw`, `SwNonZero`, `PowersNonZero`) exclude configurations on which the Python code raises `KeyError` or `ZeroDivisionError`. Those error paths are not modelled. The program's own configuration meets the preconditions, as shown by `Fpga250MhzAnalyzerWellFormed`.
- Dictionary iteration order is not modelled by the metric loops, which visit keys in arbitrary order. The order does not affect resulting maps. The report's lists are taken in an explicit key order, `Ops`, which is the insertion order of the software table.
