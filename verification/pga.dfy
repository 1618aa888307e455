/**
 * The "template_pga" amplitude processor: peak ground acceleration measured on
 * the L2 norm of the two horizontal components.
 *
 * The two horizontal traces are combined sample by sample into their Euclidean
 * norm (optionally after a pre-filter per component), an optional post-filter
 * is applied to the combined trace, and the amplitude is the largest absolute
 * deviation from the offset inside the signal window, gated by its
 * signal-to-noise ratio.
 */
module Pga {
  import opened Wrappers

  /** Component indices of a three-component station, as numbered by the processing library. */
  const FirstHorizontal: int := 1
  const SecondHorizontal: int := 2

  /** The processing states this processor reports (a subset of the library's status list). */
  datatype Status = WaitingForData | Error | MissingGain | ConfigurationError | LowSNR

  datatype DataUnit = MeterPerSecondSquared
  datatype DataComponents = Horizontal
  datatype TargetComponent = FirstHorizontalComponent

  /** What the processor knows about one component's stream. */
  datatype StreamConfig = StreamConfig(code: string, gain: real, gainUnit: string)

  /** A filter built by the filter registry from its specification string. */
  datatype Filter = Filter(spec: string)

  /** The waveform operator: the L2 norm of both horizontals, each possibly pre-filtered first. */
  datatype Operator = L2Norm | FilteredL2Norm(preFilter: Filter)

  /**
   * The settings setup reads: the component stream configurations (indexed by
   * component) and the SNR threshold, which the base processor takes over, and
   * the optional "amplitudes.template_pga.preFilter" and
   * "amplitudes.template_pga.filter" keys (None when the key is absent).
   */
  datatype Settings = Settings(
    streams: seq<StreamConfig>,
    snrMin: real,
    preFilter: Option<string>,
    filter: Option<string>)

  /** A status set by setup together with its value. */
  datatype Fault = Fault(status: Status, value: real)

  /** A data record handed to feed. */
  datatype Record = Record(streamCode: string, startTime: real, samplingFrequency: real, samples: seq<real>)

  function Abs(x: real): real {
    if x < 0.0 then -x else x
  }

  // ---------------------------------------------------------------------------
  //  Two-component combiner
  // ---------------------------------------------------------------------------

  /** The square root as the C library provides it: the non-negative root of a non-negative number. */
  ghost predicate IsSqrt(sqrt: real -> real) {
    forall x: real :: 0.0 <= x ==> 0.0 <= sqrt(x) && sqrt(x) * sqrt(x) == x
  }

  /** r is the length of the vector (a, b). */
  ghost predicate IsNorm(r: real, a: real, b: real) {
    0.0 <= r && r * r == a * a + b * b
  }

  /** The first n samples of the combined trace replaced by the norms, the rest as they were. */
  function Combined(a: seq<real>, b: seq<real>, n: int, sqrt: real -> real): (r: seq<real>)
    requires IsSqrt(sqrt)
    requires n <= |a| && n <= |b|
    ensures |r| == |a|
    ensures forall i :: 0 <= i < |a| && i < n ==> IsNorm(r[i], a[i], b[i])
    ensures forall i :: 0 <= i < |a| && n <= i ==> r[i] == a[i]
  {
    seq(|a|, i requires 0 <= i < |a| =>
      if i < n then sqrt(a[i] * a[i] + b[i] * b[i]) else a[i])
  }

  lemma SquareMonotone(r: real, s: real)
    requires 0.0 <= r < s
    ensures r * r < s * s
  {
    calc {
      r * r;
    <= { assert r * (s - r) >= 0.0; }
      r * s;
    < { assert (s - r) * s > 0.0; }
      s * s;
    }
  }

  /** A non-negative number has only one non-negative root. */
  lemma RootUnique(r: real, s: real)
    requires 0.0 <= r && 0.0 <= s && r * r == s * s
    ensures r == s
  {
    if r < s {
      SquareMonotone(r, s);
    } else if s < r {
      SquareMonotone(s, r);
    }
  }

  /** On an axis the norm is the absolute value of the other component. */
  lemma NormOnAxis(r: real, a: real, b: real)
    requires IsNorm(r, a, b)
    ensures a == 0.0 ==> r == Abs(b)
    ensures b == 0.0 ==> r == Abs(a)
  {
    if a == 0.0 {
      RootUnique(r, Abs(b));
    }
    if b == 0.0 {
      RootUnique(r, Abs(a));
    }
  }

  /** The combined trace does not depend on which square-root routine computed it. */
  lemma {:induction false} CombinedDeterminate(a: seq<real>, b: seq<real>, n: int, sqrt1: real -> real, sqrt2: real -> real)
    requires IsSqrt(sqrt1) && IsSqrt(sqrt2)
    requires n <= |a| && n <= |b|
    ensures Combined(a, b, n, sqrt1) == Combined(a, b, n, sqrt2)
  {
    var r1 := Combined(a, b, n, sqrt1);
    var r2 := Combined(a, b, n, sqrt2);
    forall i | 0 <= i < |a|
      ensures r1[i] == r2[i]
    {
      if i < n {
        RootUnique(r1[i], r2[i]);
      }
    }
  }

  /**
   * The combiner for two components. It has no state of its own: it overwrites
   * the first trace with the norm and publishes only that output.
   */
  class ComponentCombiner {

    constructor () {}

    /** Combines the first n samples of both traces in place into the first. */
    method Combine(data0: array<real>, data1: array<real>, n: int, sqrt: real -> real)
      requires IsSqrt(sqrt)
      requires data0 != data1
      requires n <= data0.Length && n <= data1.Length
      modifies data0
      ensures data0[..] == Combined(old(data0[..]), data1[..], n, sqrt)
      ensures data1[..] == old(data1[..])
    {
      ghost var before, other := data0[..], data1[..];
      ghost var combined := Combined(before, other, n, sqrt);
      var i := 0;
      while i < n
        invariant 0 <= i <= data0.Length
        invariant i <= if n < 0 then 0 else n
        invariant forall k :: 0 <= k < i ==> data0[k] == combined[k]
        invariant forall k :: i <= k < data0.Length ==> data0[k] == before[k]
      {
        data0[i] := sqrt(data0[i] * data0[i] + data1[i] * data1[i]);
        RootUnique(data0[i], combined[i]);
        i := i + 1;
      }
      assert data0[..] == combined;
    }

    /** Only output 0, the norm, is published downstream. */
    predicate Publish(c: int)
      ensures Publish(c) <==> c == 0
    {
      c == 0
    }

    /** The combiner has nothing to reset. */
    method Reset()
      ensures unchanged(this)
    {
    }
  }

  // ---------------------------------------------------------------------------
  //  Setup
  // ---------------------------------------------------------------------------

  /** Why a horizontal component is unusable, checked code first, then gain. */
  function ComponentFault(c: StreamConfig): Option<Status> {
    if c.code == "" then Some(Error)
    else if c.gain == 0.0 then Some(MissingGain)
    else None
  }

  /** What a call of setup leaves behind. */
  datatype SetupOutcome = SetupOutcome(
    ok: bool,
    operator: Option<Operator>,
    filter: Option<Filter>,
    fault: Option<Fault>)

  /**
   * The outcome of setup with the given settings, when the base processor's
   * setup answers baseOk and the filter registry can build exactly the
   * specifications for which create holds.
   */
  function SetupResult(s: Settings, baseOk: bool, create: string -> bool): SetupOutcome
    requires |s.streams| == 3
  {
    if !baseOk then SetupOutcome(false, None, None, None)
    else if ComponentFault(s.streams[FirstHorizontal]).Some? then
      SetupOutcome(false, None, None, Some(Fault(ComponentFault(s.streams[FirstHorizontal]).value, FirstHorizontal as real)))
    else if ComponentFault(s.streams[SecondHorizontal]).Some? then
      SetupOutcome(false, None, None, Some(Fault(ComponentFault(s.streams[SecondHorizontal]).value, SecondHorizontal as real)))
    else if s.streams[FirstHorizontal].gainUnit != s.streams[SecondHorizontal].gainUnit then
      SetupOutcome(false, None, None, Some(Fault(ConfigurationError, 1.0)))
    else
      var pre := s.preFilter.GetOr("");
      var post := s.filter.GetOr("");
      if pre != "" && !create(pre) then
        SetupOutcome(false, None, None, Some(Fault(ConfigurationError, 2.0)))
      else
        var op := if pre != "" then FilteredL2Norm(Filter(pre)) else L2Norm;
        if post != "" && !create(post) then
          SetupOutcome(false, Some(op), None, Some(Fault(ConfigurationError, 3.0)))
        else
          SetupOutcome(true, Some(op), if post != "" then Some(Filter(post)) else None, None)
  }

  /**
   * The component checks: the first horizontal component is checked before the
   * second, an empty code before a zero gain; the first failure is reported with
   * its component index and nothing is installed.
   */
  lemma ComponentChecks(s: Settings, baseOk: bool, create: string -> bool)
    requires |s.streams| == 3 && baseOk
    ensures var h1, h2 := s.streams[FirstHorizontal], s.streams[SecondHorizontal];
      var o := SetupResult(s, baseOk, create);
      && (h1.code == "" ==> o == SetupOutcome(false, None, None, Some(Fault(Error, 1.0))))
      && (h1.code != "" && h1.gain == 0.0 ==> o == SetupOutcome(false, None, None, Some(Fault(MissingGain, 1.0))))
      && (ComponentFault(h1).None? && h2.code == "" ==> o == SetupOutcome(false, None, None, Some(Fault(Error, 2.0))))
      && (ComponentFault(h1).None? && h2.code != "" && h2.gain == 0.0 ==>
            o == SetupOutcome(false, None, None, Some(Fault(MissingGain, 2.0))))
  {
  }

  /** Horizontals with different gain units are a configuration error with value 1. */
  lemma GainUnitMismatch(s: Settings, create: string -> bool)
    requires |s.streams| == 3
    requires ComponentFault(s.streams[FirstHorizontal]).None? && ComponentFault(s.streams[SecondHorizontal]).None?
    requires s.streams[FirstHorizontal].gainUnit != s.streams[SecondHorizontal].gainUnit
    ensures SetupResult(s, true, create) == SetupOutcome(false, None, None, Some(Fault(ConfigurationError, 1.0)))
  {
  }

  /** Settings that pass the component and unit checks. */
  ghost predicate StreamsUsable(s: Settings)
    requires |s.streams| == 3
  {
    && ComponentFault(s.streams[FirstHorizontal]).None?
    && ComponentFault(s.streams[SecondHorizontal]).None?
    && s.streams[FirstHorizontal].gainUnit == s.streams[SecondHorizontal].gainUnit
  }

  /**
   * Once the streams are usable: setup succeeds exactly when every configured
   * filter can be built; an absent or empty key disables its filter; a bad
   * pre-filter installs nothing (value 2); a bad post-filter leaves the
   * combining operator installed (value 3); the operator pre-filters the
   * components exactly when a pre-filter is configured.
   */
  lemma FilterOutcomes(s: Settings, create: string -> bool)
    requires |s.streams| == 3 && StreamsUsable(s)
    ensures var o := SetupResult(s, true, create);
      var pre, post := s.preFilter.GetOr(""), s.filter.GetOr("");
      && (o.ok <==> (pre == "" || create(pre)) && (post == "" || create(post)))
      && (pre != "" && !create(pre) ==> o == SetupOutcome(false, None, None, Some(Fault(ConfigurationError, 2.0))))
      && ((pre == "" || create(pre)) && post != "" && !create(post) ==>
            o.fault == Some(Fault(ConfigurationError, 3.0)) && o.operator.Some? && o.filter.None?)
      && ((pre == "" || create(pre)) ==>
            o.operator == Some(if pre == "" then L2Norm else FilteredL2Norm(Filter(pre))))
      && (o.ok ==> o.fault.None? && o.filter == (if post == "" then None else Some(Filter(post))))
  {
  }

  /** Setup succeeds only with both horizontals usable, and then always installs an operator. */
  lemma SetupSuccess(s: Settings, baseOk: bool, create: string -> bool)
    requires |s.streams| == 3
    ensures SetupResult(s, baseOk, create).ok ==> baseOk && StreamsUsable(s)
    ensures SetupResult(s, baseOk, create).ok ==> SetupResult(s, baseOk, create).operator.Some?
    ensures !SetupResult(s, baseOk, create).ok ==> SetupResult(s, baseOk, create).filter.None?
  {
  }

  // ---------------------------------------------------------------------------
  //  Amplitude computation
  // ---------------------------------------------------------------------------

  /** k is a position of largest |x - offset| in data[lo..hi), and the first such position. */
  ghost predicate IsFirstAbsMax(data: seq<real>, lo: int, hi: int, offset: real, k: int) {
    && 0 <= lo <= k < hi <= |data|
    && (forall j :: lo <= j < hi ==> Abs(data[j] - offset) <= Abs(data[k] - offset))
    && (forall j :: lo <= j < k ==> Abs(data[j] - offset) < Abs(data[k] - offset))
  }

  /** The index of the absolute maximum of data[lo..hi) around offset. */
  method FindAbsMax(data: seq<real>, lo: int, hi: int, offset: real) returns (k: int)
    requires 0 <= lo < hi <= |data|
    ensures IsFirstAbsMax(data, lo, hi, offset, k)
  {
    k := lo;
    var amax := Abs(data[lo] - offset);
    var i := lo + 1;
    while i < hi
      invariant lo <= k < i <= hi
      invariant amax == Abs(data[k] - offset)
      invariant forall j :: lo <= j < i ==> Abs(data[j] - offset) <= amax
      invariant forall j :: lo <= j < k ==> Abs(data[j] - offset) < amax
    {
      if Abs(data[i] - offset) > amax {
        k := i;
        amax := Abs(data[i] - offset);
      }
      i := i + 1;
    }
  }

  /** The signal-to-noise ratio: -1 when the noise amplitude is zero. */
  function Snr(value: real, noise: real): (snr: real)
    ensures noise == 0.0 ==> snr == -1.0
    ensures noise != 0.0 ==> snr * noise == value
    ensures 0.0 <= value && 0.0 < noise ==> 0.0 <= snr
  {
    if noise == 0.0 then -1.0 else value / noise
  }

  /** The SNR gate: a measurement is kept unless its SNR is below the threshold. */
  predicate Accepted(snr: real, snrMin: real) {
    !(snr < snrMin)
  }

  /** Without noise the measurement passes the gate exactly when the threshold is at most -1. */
  lemma ZeroNoiseGate(value: real, snrMin: real)
    ensures Accepted(Snr(value, 0.0), snrMin) <==> snrMin <= -1.0
  {
  }

  /** Above the noise, a larger amplitude never turns an accepted measurement into a rejected one. */
  lemma GateMonotone(value1: real, value2: real, noise: real, snrMin: real)
    requires 0.0 < noise && value1 <= value2
    requires Accepted(Snr(value1, noise), snrMin)
    ensures Accepted(Snr(value2, noise), snrMin)
  {
    assert value1 / noise <= value2 / noise;
  }

  // ---------------------------------------------------------------------------
  //  The processor
  // ---------------------------------------------------------------------------

  class PgaProcessor {
    // Time windows relative to the trigger time, in seconds. The end of the
    // signal window is an expression over the distance R, evaluated by the base
    // processor.
    var noiseStart: real
    var noiseEnd: real
    var signalStart: real
    var signalEnd: string
    var dataUnit: DataUnit
    var dataComponents: DataComponents
    var targetComponent: TargetComponent

    // Taken over from the settings by the base processor's setup.
    var streamConfig: seq<StreamConfig>
    var snrMin: real

    var operator: Option<Operator>
    var filter: Option<Filter>
    var status: Status
    var statusValue: real

    /** The records passed on to the base processor's feed, oldest first. */
    var forwarded: seq<Record>

    constructor ()
      ensures noiseStart == -10.0 && noiseEnd == -2.0
      ensures signalStart == -2.0 && signalEnd == "max(150, R / 3.5)"
      ensures dataUnit == MeterPerSecondSquared
      ensures dataComponents == Horizontal && targetComponent == FirstHorizontalComponent
      ensures operator == None && filter == None
      ensures status == WaitingForData && forwarded == []
    {
      noiseStart, noiseEnd := -10.0, -2.0;
      signalStart, signalEnd := -2.0, "max(150, R / 3.5)";
      dataUnit := MeterPerSecondSquared;
      dataComponents, targetComponent := Horizontal, FirstHorizontalComponent;
      streamConfig, snrMin := [], 0.0;
      operator, filter := None, None;
      status, statusValue := WaitingForData, 0.0;
      forwarded := [];
    }

    /**
     * Configures the processor. baseOk is the answer of the base processor's
     * setup; create tells which filter specifications the registry can build.
     */
    method Setup(s: Settings, baseOk: bool, create: string -> bool) returns (ok: bool)
      requires |s.streams| == 3
      modifies this`streamConfig, this`snrMin, this`operator, this`filter, this`status, this`statusValue
      ensures ok == SetupResult(s, baseOk, create).ok
      ensures operator == SetupResult(s, baseOk, create).operator
      ensures filter == SetupResult(s, baseOk, create).filter
      ensures SetupResult(s, baseOk, create).fault.Some? ==>
        Fault(status, statusValue) == SetupResult(s, baseOk, create).fault.value
      ensures SetupResult(s, baseOk, create).fault.None? ==>
        status == old(status) && statusValue == old(statusValue)
      ensures baseOk ==> streamConfig == s.streams && snrMin == s.snrMin
      ensures !baseOk ==> streamConfig == old(streamConfig) && snrMin == old(snrMin)
    {
      operator := None;
      filter := None;

      if !baseOk {
        return false;
      }
      streamConfig, snrMin := s.streams, s.snrMin;

      var i := FirstHorizontal;
      while i <= SecondHorizontal
        invariant FirstHorizontal <= i <= SecondHorizontal + 1
        invariant forall j :: FirstHorizontal <= j < i ==> ComponentFault(streamConfig[j]).None?
        invariant operator == None && filter == None
        invariant status == old(status) && statusValue == old(statusValue)
      {
        if streamConfig[i].code == "" {
          status, statusValue := Error, i as real;
          return false;
        }
        if streamConfig[i].gain == 0.0 {
          status, statusValue := MissingGain, i as real;
          return false;
        }
        i := i + 1;
      }

      if streamConfig[FirstHorizontal].gainUnit != streamConfig[SecondHorizontal].gainUnit {
        status, statusValue := ConfigurationError, 1.0;
        return false;
      }

      var preFilter := s.preFilter.GetOr("");
      var postFilter := s.filter.GetOr("");

      if preFilter != "" {
        if !create(preFilter) {
          status, statusValue := ConfigurationError, 2.0;
          return false;
        }
        operator := Some(FilteredL2Norm(Filter(preFilter)));
      } else {
        operator := Some(L2Norm);
      }

      if postFilter != "" {
        if !create(postFilter) {
          status, statusValue := ConfigurationError, 3.0;
          return false;
        }
        filter := Some(Filter(postFilter));
      }

      return true;
    }

    /**
     * Passes a record on to the base processor, whose answer is baseFeed;
     * refuses it while no operator is installed.
     */
    method Feed(rec: Record, baseFeed: bool) returns (ok: bool)
      modifies this`forwarded
      ensures operator.None? ==> !ok && forwarded == old(forwarded)
      ensures operator.Some? ==> ok == baseFeed && forwarded == old(forwarded) + [rec]
    {
      if operator.None? {
        return false;
      }
      forwarded := forwarded + [rec];
      return baseFeed;
    }

    /**
     * Measures the amplitude in the signal window data[si1..si2) around offset,
     * given the noise amplitude the base processor found. The noise window
     * bounds i1, i2 are not used.
     */
    method ComputeAmplitude(data: seq<real>, i1: int, i2: int, si1: int, si2: int, offset: real, noiseAmplitude: real)
      returns (ok: bool, index: int, value: real, period: real, snr: real)
      requires 0 <= si1 < si2 <= |data|
      modifies this`status, this`statusValue
      ensures period == -1.0
      ensures IsFirstAbsMax(data, si1, si2, offset, index)
      ensures value == Abs(data[index] - offset) && 0.0 <= value
      ensures (forall j :: si1 <= j < si2 ==> data[j] == offset) ==> value == 0.0
      ensures snr == Snr(value, noiseAmplitude)
      ensures ok <==> Accepted(snr, snrMin)
      ensures !ok ==> status == LowSNR && statusValue == snr
      ensures ok ==> status == old(status) && statusValue == old(statusValue)
    {
      period := -1.0;
      snr := -1.0;
      index := FindAbsMax(data, si1, si2, offset);
      value := Abs(data[index] - offset);

      if noiseAmplitude == 0.0 {
        snr := -1.0;
      } else {
        snr := value / noiseAmplitude;
      }

      if snr < snrMin {
        status, statusValue := LowSNR, snr;
        ok := false;
        return;
      }
      ok := true;
    }
  }
}
