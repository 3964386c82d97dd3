/**
 * The request-facing part of the NIST SP 800-22 Rev. 1a test service:
 * validation of the submitted bitstream's size, conversion of the engine's
 * per-test results into the response, the suite-level counts and pass rate,
 * and the uniformity-of-p-values check over ten equal-width bins.
 *
 * The statistical engine itself is a parameter (`runAllTests`), and so is
 * the regularized upper incomplete gamma function (`gammaQ`).
 */
module Service {
  import opened Wrappers

  type Byte = bv8

  /** Smallest accepted bitstream, in bits (the Universal Statistical Test's minimum). */
  const MinBits: nat := 387840
  /** Largest accepted bitstream, in bits (a performance ceiling). */
  const MaxBits: nat := 10000000

  /** The uniformity check divides [0, 1] into this many equal-width bins. */
  const NumBins: nat := 10
  /** Fewer real p-values than this and the uniformity check is not run. */
  const MinUniformityPValues: nat := 5
  /** Reported as the uniformity result when the check is not run. */
  const NotEnoughData: real := -1.0

  const TwoTo31: int := 0x8000_0000

  /** One test's outcome as the engine reports it; a negative p-value means the test was skipped. */
  datatype TestResult = TestResult(name: string, pValue: real, passed: bool, proportion: real, warning: string)

  /** One test's outcome as the response carries it; absent optional fields are `None`. */
  datatype ResultEntry = ResultEntry(
    name: string,
    pValue: real,
    passed: bool,
    proportion: Option<real>,
    warning: Option<string>)

  /** The suite response (timestamp and execution time are not modelled). */
  datatype Response = Response(
    sampleSizeBits: int,
    results: seq<ResultEntry>,
    overallPassRate: real,
    testsRun: int,
    testsSkipped: int,
    testsTotal: int,
    nistCompliant: bool,
    pValueUniformityChi2: real)

  datatype ServiceError =
    | EmptyBitstream
    | InsufficientBits(got: nat, need: nat)
    | TooManyBits(got: nat, maximum: nat)
    | ExecutionFailed(cause: string)

  /** The statistical engine: the per-test results for a bitstream, or an error. */
  type Engine = seq<Byte> -> Result<seq<TestResult>, string>

  /** Go's `int32(x)`: two's-complement wrap-around into [-2^31, 2^31). */
  function WrapInt32(x: int): (r: int)
    ensures -TwoTo31 <= r < TwoTo31
    ensures (x - r) % (2 * TwoTo31) == 0
    ensures -TwoTo31 <= x < TwoTo31 ==> r == x
  {
    (x + TwoTo31) % (2 * TwoTo31) - TwoTo31
  }

  // ---------------------------------------------------------------------
  // Request validation
  // ---------------------------------------------------------------------

  /** Checks, in order, that the bitstream is non-empty, holds at least
      MinBits bits and at most MaxBits bits. */
  function ValidateRequest(bitstream: seq<Byte>): (r: Outcome<ServiceError>)
    ensures r == Fail(EmptyBitstream) <==> |bitstream| == 0
    ensures r == Fail(InsufficientBits(8 * |bitstream|, MinBits)) <==> 0 < 8 * |bitstream| < MinBits
    ensures r == Fail(TooManyBits(8 * |bitstream|, MaxBits)) <==> MaxBits < 8 * |bitstream|
    ensures r.Pass? <==> MinBits / 8 <= |bitstream| <= MaxBits / 8
  {
    if |bitstream| == 0 then
      Fail(EmptyBitstream)
    else
      var numBits := |bitstream| * 8;
      if numBits < MinBits then
        Fail(InsufficientBits(numBits, MinBits))
      else if numBits > MaxBits then
        Fail(TooManyBits(numBits, MaxBits))
      else
        Pass
  }

  /** The sizes the service's tests probe: 10 bytes and one byte past the
      ceiling are refused, exactly MinBits / 8 bytes is accepted. */
  lemma ValidateRequestExamples()
    ensures ValidateRequest(seq(10, _ => 0)) == Fail(InsufficientBits(80, MinBits))
    ensures ValidateRequest(seq(MaxBits / 8 + 1, _ => 0)).error.TooManyBits?
    ensures ValidateRequest(seq(MinBits / 8, _ => 0)) == Pass
    ensures ValidateRequest([]) == Fail(EmptyBitstream)
  {
  }

  // ---------------------------------------------------------------------
  // Converting and counting the engine's results
  // ---------------------------------------------------------------------

  predicate IsSkipped(t: TestResult) {
    t.pValue < 0.0
  }

  function OptionalWarning(w: string): Option<string> {
    if w == "" then None else Some(w)
  }

  /** The response entry for one engine result. A skipped result is always
      reported as failed and never carries a proportion. */
  function Convert(t: TestResult): (e: ResultEntry)
    ensures e.name == t.name && e.pValue == t.pValue
    ensures e.passed <==> !IsSkipped(t) && t.passed
    ensures e.proportion != None <==> !IsSkipped(t) && t.proportion > 0.0
    ensures e.proportion != None ==> e.proportion.value == t.proportion
    ensures e.warning != None <==> t.warning != ""
    ensures e.warning != None ==> e.warning.value == t.warning
  {
    if IsSkipped(t) then
      ResultEntry(t.name, t.pValue, false, None, OptionalWarning(t.warning))
    else
      var proportion := if t.proportion > 0.0 then Some(t.proportion) else None;
      ResultEntry(t.name, t.pValue, t.passed, proportion, OptionalWarning(t.warning))
  }

  function Last<T>(s: seq<T>): T
    requires s != []
  {
    s[|s| - 1]
  }

  function DropLast<T>(s: seq<T>): seq<T>
    requires s != []
  {
    s[..|s| - 1]
  }

  /** Number of results that were actually run (non-negative p-value). */
  function CountRun(rs: seq<TestResult>): (n: nat)
    ensures n <= |rs|
    ensures n == |rs| <==> forall i :: 0 <= i < |rs| ==> !IsSkipped(rs[i])
  {
    if rs == [] then 0
    else
      var n := CountRun(DropLast(rs)) + (if IsSkipped(Last(rs)) then 0 else 1);
      assert n == |rs| ==> forall i :: 0 <= i < |rs| - 1 ==> !IsSkipped(DropLast(rs)[i]);
      n
  }

  /** Number of results that were run and passed. */
  function CountPassed(rs: seq<TestResult>): (n: nat)
    ensures n <= CountRun(rs)
  {
    if rs == [] then 0
    else CountPassed(DropLast(rs)) + (if !IsSkipped(Last(rs)) && Last(rs).passed then 1 else 0)
  }

  /** The p-values of the results that were run, in order. */
  function RealPValues(rs: seq<TestResult>): (ps: seq<real>)
    ensures |ps| == CountRun(rs)
    ensures forall i :: 0 <= i < |ps| ==> ps[i] >= 0.0
  {
    if rs == [] then []
    else if IsSkipped(Last(rs)) then RealPValues(DropLast(rs))
    else RealPValues(DropLast(rs)) + [Last(rs).pValue]
  }

  /** Every real p-value is the p-value of some result that was run, and
      every result that was run contributes its p-value. */
  lemma {:induction false} RealPValuesAreTheRunOnes(rs: seq<TestResult>)
    ensures forall p :: p in RealPValues(rs) ==> exists i :: 0 <= i < |rs| && !IsSkipped(rs[i]) && rs[i].pValue == p
    ensures forall i :: 0 <= i < |rs| && !IsSkipped(rs[i]) ==> rs[i].pValue in RealPValues(rs)
  {
    if rs != [] {
      var init := DropLast(rs);
      RealPValuesAreTheRunOnes(init);
      forall p | p in RealPValues(rs)
        ensures exists i :: 0 <= i < |rs| && !IsSkipped(rs[i]) && rs[i].pValue == p
      {
        if p in RealPValues(init) {
          var i :| 0 <= i < |init| && !IsSkipped(init[i]) && init[i].pValue == p;
          assert rs[i] == init[i];
        } else {
          assert rs[|rs| - 1].pValue == p;
        }
      }
      forall i | 0 <= i < |rs| && !IsSkipped(rs[i])
        ensures rs[i].pValue in RealPValues(rs)
      {
        if i < |init| {
          assert init[i] == rs[i];
        }
      }
    }
  }

  /** The conversion loop of RunTestSuite: fills the response entries in
      place, counts the tests run and passed, and collects the real p-values. */
  method ConvertResults(results: seq<TestResult>)
    returns (entries: seq<ResultEntry>, passedCount: nat, testsRun: nat, pValues: seq<real>)
    ensures |entries| == |results|
    ensures forall i :: 0 <= i < |results| ==> entries[i] == Convert(results[i])
    ensures testsRun == CountRun(results)
    ensures passedCount == CountPassed(results)
    ensures pValues == RealPValues(results)
  {
    var converted := new ResultEntry[|results|];
    passedCount, testsRun, pValues := 0, 0, [];
    for i := 0 to |results|
      invariant forall k :: 0 <= k < i ==> converted[k] == Convert(results[k])
      invariant testsRun == CountRun(results[..i])
      invariant passedCount == CountPassed(results[..i])
      invariant pValues == RealPValues(results[..i])
    {
      assert DropLast(results[..i + 1]) == results[..i];
      var result := results[i];
      if result.pValue < 0.0 {
        converted[i] := ResultEntry(result.name, result.pValue, false, None, OptionalWarning(result.warning));
        continue;
      }
      testsRun := testsRun + 1;
      if result.passed {
        passedCount := passedCount + 1;
      }
      var proportion := if result.proportion > 0.0 then Some(result.proportion) else None;
      converted[i] := ResultEntry(result.name, result.pValue, result.passed, proportion, OptionalWarning(result.warning));
      pValues := pValues + [result.pValue];
    }
    assert results[..|results|] == results;
    entries := converted[..];
  }

  // ---------------------------------------------------------------------
  // Uniformity of the p-values
  // ---------------------------------------------------------------------

  predicate InUnitInterval(p: real) {
    0.0 <= p <= 1.0
  }

  /** The bin of a p-value in [0, 1]: the integer part of 10 * p, with 1.0
      placed in the last bin. */
  function BinIndex(p: real): (k: nat)
    requires InUnitInterval(p)
    ensures k < NumBins
    ensures p < 1.0 ==> k as real <= p * NumBins as real < k as real + 1.0
    ensures p == 1.0 ==> k == NumBins - 1
  {
    var raw := (p * NumBins as real).Floor;
    if raw == NumBins then NumBins - 1 else raw
  }

  /** Number of p-values in [0, 1]. */
  function CountInRange(ps: seq<real>): (n: nat)
    ensures n <= |ps|
  {
    if ps == [] then 0
    else CountInRange(DropLast(ps)) + (if InUnitInterval(Last(ps)) then 1 else 0)
  }

  /** Number of p-values in [0, 1] that fall in bin k. */
  function CountInBin(ps: seq<real>, k: int): nat {
    if ps == [] then 0
    else CountInBin(DropLast(ps), k) + (if InUnitInterval(Last(ps)) && BinIndex(Last(ps)) == k then 1 else 0)
  }

  /** The histogram of the p-values over the ten bins. */
  function Bins(ps: seq<real>): (bins: seq<nat>)
    ensures |bins| == NumBins
  {
    seq(NumBins, k => CountInBin(ps, k))
  }

  function Total(s: seq<nat>): nat {
    if s == [] then 0 else Total(DropLast(s)) + Last(s)
  }

  lemma {:induction false} TotalIncrement(s: seq<nat>, j: nat)
    requires j < |s|
    ensures Total(s[j := s[j] + 1]) == Total(s) + 1
  {
    var t := s[j := s[j] + 1];
    if j < |s| - 1 {
      assert DropLast(t) == DropLast(s)[j := s[j] + 1];
      TotalIncrement(DropLast(s), j);
    } else {
      assert DropLast(t) == DropLast(s);
    }
  }

  /** Appending a p-value outside [0, 1] leaves every bin unchanged;
      appending one inside adds one to its own bin and to no other. */
  lemma BinsAppend(ps: seq<real>, p: real)
    ensures !InUnitInterval(p) ==> Bins(ps + [p]) == Bins(ps)
    ensures InUnitInterval(p) ==> Bins(ps + [p]) == Bins(ps)[BinIndex(p) := Bins(ps)[BinIndex(p)] + 1]
  {
  }

  /** Every p-value in [0, 1] is counted exactly once: the bins add up to
      the number of such values, which is at most the number of inputs. */
  lemma {:induction false} TotalOfZeros(n: nat)
    ensures Total(seq(n, _ => 0)) == 0
  {
    if n > 0 {
      assert DropLast(seq(n, _ => 0)) == seq(n - 1, _ => 0);
      TotalOfZeros(n - 1);
    }
  }

  lemma {:induction false} BinsTotal(ps: seq<real>)
    ensures Total(Bins(ps)) == CountInRange(ps) <= |ps|
  {
    if ps == [] {
      assert Bins(ps) == seq(NumBins, _ => 0);
      TotalOfZeros(NumBins);
    } else {
      var init, p := DropLast(ps), Last(ps);
      assert ps == init + [p];
      BinsTotal(init);
      BinsAppend(init, p);
      if InUnitInterval(p) {
        TotalIncrement(Bins(init), BinIndex(p));
      }
    }
  }

  /** The boundary case the service's tests probe: -0.1 and 1.1 are dropped,
      1.0 goes into the last bin, 0.0 into the first and 0.5 into bin 5. */
  lemma BinsBoundaryExample()
    ensures Bins([-0.1, 1.1, 1.0, 0.0, 0.5]) == [1, 0, 0, 0, 0, 1, 0, 0, 0, 1]
  {
    var z: seq<nat> := seq(NumBins, _ => 0);
    assert Bins([]) == z;
    BinsAppend([], -0.1);
    assert [] + [-0.1] == [-0.1];
    BinsAppend([-0.1], 1.1);
    assert [-0.1] + [1.1] == [-0.1, 1.1];
    BinsAppend([-0.1, 1.1], 1.0);
    assert [-0.1, 1.1] + [1.0] == [-0.1, 1.1, 1.0];
    BinsAppend([-0.1, 1.1, 1.0], 0.0);
    assert [-0.1, 1.1, 1.0] + [0.0] == [-0.1, 1.1, 1.0, 0.0];
    BinsAppend([-0.1, 1.1, 1.0, 0.0], 0.5);
    assert [-0.1, 1.1, 1.0, 0.0] + [0.5] == [-0.1, 1.1, 1.0, 0.0, 0.5];
    assert BinIndex(0.5) == 5;
  }

  lemma SquareOverPositive(d: real, e: real)
    requires e > 0.0
    ensures d * d / e >= 0.0
  {
  }

  /** Pearson's chi-squared sum of (observed - expected)^2 / expected, added
      up bin by bin from the first. Each term is a square over a positive
      expectation, so the sum is never negative. */
  function Chi2Sum(observed: seq<nat>, expected: real): (chi2: real)
    requires expected > 0.0
    ensures chi2 >= 0.0
  {
    if observed == [] then 0.0
    else
      var diff := Last(observed) as real - expected;
      SquareOverPositive(diff, expected);
      Chi2Sum(DropLast(observed), expected) + diff * diff / expected
  }

  /** A histogram that holds the expected count in every bin has a
      chi-squared sum of zero. */
  lemma {:induction false} Chi2SumZeroWhenUniform(observed: seq<nat>, expected: real)
    requires expected > 0.0
    requires forall i :: 0 <= i < |observed| ==> observed[i] as real == expected
    ensures Chi2Sum(observed, expected) == 0.0
  {
    if observed != [] {
      var rest := DropLast(observed);
      assert forall i :: 0 <= i < |rest| ==> rest[i] == observed[i];
      Chi2SumZeroWhenUniform(rest, expected);
      var diff := Last(observed) as real - expected;
      assert diff == 0.0;
      assert diff * diff / expected == 0.0;
    }
  }

  /** The chi-squared statistic of the p-value histogram against a uniform
      expectation of |ps| / 10 per bin. */
  function Chi2Statistic(ps: seq<real>): (chi2: real)
    requires ps != []
    ensures chi2 >= 0.0
  {
    Chi2Sum(Bins(ps), |ps| as real / NumBins as real)
  }

  /** The binning loop of calculatePValueUniformity: each p-value in [0, 1]
      adds one to bin floor(10 * p), 1.0 to the last bin; others are dropped. */
  method CountBins(pValues: seq<real>) returns (counts: seq<nat>)
    ensures counts == Bins(pValues)
  {
    var bins := new nat[NumBins](_ => 0);
    assert bins[..] == Bins([]);
    for i := 0 to |pValues|
      invariant bins[..] == Bins(pValues[..i])
    {
      var pval := pValues[i];
      BinsAppend(pValues[..i], pval);
      assert pValues[..i + 1] == pValues[..i] + [pval];
      if pval < 0.0 || pval > 1.0 {
        continue;
      }
      var binIndex := (pval * NumBins as real).Floor;
      if binIndex == NumBins {
        binIndex := NumBins - 1;
      }
      assert binIndex == BinIndex(pval);
      bins[binIndex] := bins[binIndex] + 1;
    }
    assert pValues[..|pValues|] == pValues;
    counts := bins[..];
  }

  /** The accumulation loop of calculatePValueUniformity. */
  method ChiSquared(observed: seq<nat>, expected: real) returns (chi2: real)
    requires expected > 0.0
    ensures chi2 == Chi2Sum(observed, expected)
  {
    chi2 := 0.0;
    for j := 0 to |observed|
      invariant chi2 == Chi2Sum(observed[..j], expected)
    {
      assert DropLast(observed[..j + 1]) == observed[..j];
      var diff := observed[j] as real - expected;
      chi2 := chi2 + (diff * diff) / expected;
    }
    assert observed[..|observed|] == observed;
  }

  /** The meta p-value of the uniformity check: 0 for no input, otherwise
      the upper regularized incomplete gamma function at (9/2, chi2/2). */
  method CalculatePValueUniformity(pValues: seq<real>, gammaQ: (real, real) -> real) returns (u: real)
    ensures pValues == [] ==> u == 0.0
    ensures pValues != [] ==> u == gammaQ((NumBins - 1) as real / 2.0, Chi2Statistic(pValues) / 2.0)
  {
    if |pValues| == 0 {
      return 0.0;
    }
    var bins := CountBins(pValues);
    var expectedCount := |pValues| as real / NumBins as real;
    var chi2 := ChiSquared(bins, expectedCount);
    var df := (NumBins - 1) as real;
    u := gammaQ(df / 2.0, chi2 / 2.0);
  }

  // ---------------------------------------------------------------------
  // The RunTestSuite request
  // ---------------------------------------------------------------------

  lemma RatioBounds(passed: nat, run: nat)
    requires 0 < run && passed <= run
    ensures 0.0 <= passed as real / run as real <= 1.0
  {
  }

  /** Validates the request, runs the engine, and assembles the response.
      A validation failure or an engine error yields an error and no response. */
  method RunTestSuite(bitstream: seq<Byte>, runAllTests: Engine, gammaQ: (real, real) -> real)
    returns (r: Result<Response, ServiceError>)
    ensures ValidateRequest(bitstream).Fail? ==> r == Failure(ValidateRequest(bitstream).error)
    ensures ValidateRequest(bitstream).Pass? && runAllTests(bitstream).Failure? ==>
              r == Failure(ExecutionFailed(runAllTests(bitstream).error))
    ensures r.Success? <==> ValidateRequest(bitstream).Pass? && runAllTests(bitstream).Success?
    ensures r.Success? ==>
              var results, resp := runAllTests(bitstream).value, r.value;
              && resp.sampleSizeBits == 8 * |bitstream|
              && |resp.results| == |results|
              && (forall i :: 0 <= i < |results| ==> resp.results[i] == Convert(results[i]))
              && resp.testsRun == WrapInt32(CountRun(results))
              && resp.testsSkipped == WrapInt32(|results| - CountRun(results))
              && resp.testsTotal == WrapInt32(|results|)
              && (resp.nistCompliant <==> forall i :: 0 <= i < |results| ==> !IsSkipped(results[i]))
              && (CountRun(results) == 0 ==> resp.overallPassRate == 0.0)
              && (CountRun(results) > 0 ==>
                    resp.overallPassRate == CountPassed(results) as real / CountRun(results) as real)
              && 0.0 <= resp.overallPassRate <= 1.0
              && (CountRun(results) < MinUniformityPValues ==> resp.pValueUniformityChi2 == NotEnoughData)
              && (CountRun(results) >= MinUniformityPValues ==>
                    resp.pValueUniformityChi2 == gammaQ(4.5, Chi2Statistic(RealPValues(results)) / 2.0))
    // With fewer than 2^31 results no count wraps: every result is either run
    // or skipped, no more tests pass than run, and compliance means nothing was skipped.
    ensures r.Success? && |runAllTests(bitstream).value| < TwoTo31 ==>
              var results, resp := runAllTests(bitstream).value, r.value;
              && resp.testsRun + resp.testsSkipped == resp.testsTotal == |results|
              && CountPassed(results) <= resp.testsRun
              && (resp.nistCompliant <==> resp.testsRun == resp.testsTotal)
  {
    var validation := ValidateRequest(bitstream);
    if validation.Fail? {
      return Failure(validation.error);
    }
    var outcome := runAllTests(bitstream);
    if outcome.Failure? {
      return Failure(ExecutionFailed(outcome.error));
    }
    var results := outcome.value;
    var sampleBits := WrapInt32(|bitstream| * 8);

    var entries, passedCount, testsRun, pValues := ConvertResults(results);

    var overallPassRate: real;
    if testsRun > 0 {
      overallPassRate := passedCount as real / testsRun as real;
      RatioBounds(passedCount, testsRun);
    } else {
      overallPassRate := 0.0;
    }

    var uniformity: real;
    if |pValues| >= MinUniformityPValues {
      uniformity := CalculatePValueUniformity(pValues, gammaQ);
    } else {
      uniformity := NotEnoughData;
    }

    var response := Response(
      sampleSizeBits := sampleBits,
      results := entries,
      overallPassRate := overallPassRate,
      testsRun := WrapInt32(testsRun),
      testsSkipped := WrapInt32(|results| - testsRun),
      testsTotal := WrapInt32(|results|),
      nistCompliant := testsRun == |results|,
      pValueUniformityChi2 := uniformity);
    r := Success(response);
  }
}
