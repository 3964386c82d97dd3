# NIST SP 800-22 test service: request handling and configuration

This project models the deterministic code around the statistical engine of a
NIST SP 800-22 Rev. 1a randomness-testing service. It proves properties of that model in Dafny.

- `service.dfy` (module `Service`) covers the service's request path:
  - `ValidateRequest` checks the bitstream size. It must be non-empty and
    hold between 387,840 and 10,000,000 bits.
  - `RunTestSuite` validates the request and runs the engine. It then
    converts the engine's per-test results into response entries. It counts
    the tests run, skipped and passed. It sets the pass rate and the
    compliance flag. It runs the uniformity-of-p-values check, which needs at
    least five real p-values and otherwise reports -1.0.
  - `CalculatePValueUniformity` is that check. It sorts the p-values into ten
    bins and takes Pearson's chi-squared statistic against a uniform
    expectation. It converts the statistic with the upper regularized
    incomplete gamma function, with 9 degrees of freedom.
  - The engine (`runAllTests`) and the gamma function (`gammaQ`) are function
    parameters.
- `config.dfy` (module `Config`) covers the service configuration:
  - `Load` reads every setting from the environment, with a default for each.
  - `Validate` checks the result: both ports in 1..65535, a known log level,
    and an issuer and an audience when authentication is on. The checks run
    in a fixed order.
  - The environment is a map. An unset variable reads as "". The integer and
    boolean parsers are partial functions passed as parameters.
- `wrappers.dfy` (module `Wrappers`) holds the `Option`, `Result` and
  `Outcome` types. They stand for Go's nil pointers and `(value, error)`
  returns.

Three points of the code are worth stating:

- `TestsTotal` is `int32(len(results))`, the number of results the engine
  returned (internal/service/service.go:157). The comment on that line says
  it is always 15, and internal/service/service_test.go:54 expects 15; the
  model follows the code.
- A skipped result (negative p-value) carries a warning only when the engine
  supplied a non-empty one (internal/service/service.go:99-107).
- `PValueUniformityChi2` holds the p-value that `gammaQ` returns, not the
  raw chi-squared statistic (internal/service/service.go:236). The comment
  at internal/service/service.go:234 speaks of returning the raw statistic;
  the model follows the code. The range of the returned value is not
  proved.

In `calculatePValueUniformity`, p-values outside [0, 1] are dropped from the
bins but still counted in the expected count per bin, len/10. The model
keeps that behaviour: `Chi2Statistic` uses |ps| / 10 as the expectation, and
the ensures of `CalculatePValueUniformity` state the result in terms of it.

## Model

| member | source | states |
|---|---|---|
| `Service.WrapInt32` | internal/service/service.go:155-157 | Go's `int32(x)` conversion: the result lies in [-2^31, 2^31) and is congruent to x modulo 2^32. It equals x whenever x already fits. |
| `Service.ValidateRequest` | internal/service/service.go:178-198 | The request is refused as empty exactly when it has no bytes. It is refused as too short exactly when 0 < 8·len < MinBits, and as too long exactly when 8·len > MaxBits. Each error reports the bit count. The request is accepted exactly when MinBits/8 ≤ len ≤ MaxBits/8. |
| `Service.ValidateRequestExamples` | internal/service/service_test.go:65-82 | 10 bytes, MaxBits/8 + 1 bytes and 0 bytes are refused, each with its own error. MinBits/8 bytes is accepted. |
| `Service.Convert` | internal/service/service.go:97-140 | Each response entry copies the result's name and p-value. A skipped result (negative p-value) is reported as not passed and never carries a proportion. A result that ran keeps its verdict and carries its proportion only when it is positive. A warning is attached exactly when it is non-empty. |
| `Service.CountRun` | internal/service/service.go:113-114 | The number of tests run is at most the number of results. It equals the number of results exactly when no result was skipped. |
| `Service.CountPassed` | internal/service/service.go:117-121 | No more tests pass than were run. |
| `Service.RealPValues` | internal/service/service.go:142-143 | One p-value per test run, each non-negative. |
| `Service.RealPValuesAreTheRunOnes` | internal/service/service.go:96-143 | The uniformity check gets exactly the p-values of the tests that ran. Each of them is the p-value of some non-skipped result, and every non-skipped result contributes its own. |
| `Service.ConvertResults` | internal/service/service.go:91-144 | The conversion loop fills one entry per result, in the same order. Each entry is `Convert` of its result. The loop counts the tests run and passed and collects the real p-values in order. |
| `Service.BinIndex` | internal/service/service.go:217-220 | A p-value p in [0, 1) lands in the bin k with k ≤ 10·p < k + 1. The value 1.0 lands in bin 9. Every bin index lies in 0..9. |
| `Service.CountInRange` | internal/service/service.go:213-215 | The number of p-values kept for binning is at most the number supplied. |
| `Service.Bins` | internal/service/service.go:208-209 | The histogram has exactly ten bins. |
| `Service.BinsAppend` | internal/service/service.go:212-222 | Adding a p-value outside [0, 1] changes no bin. Adding one inside [0, 1] adds one to its own bin and to no other. |
| `Service.BinsTotal` | internal/service/service.go:212-222 | The bins add up to the number of p-values in [0, 1], which is at most the number of inputs. |
| `Service.BinsBoundaryExample` | internal/service/service_test.go:84-102 | For the inputs -0.1, 1.1, 1.0, 0.0, 0.5 the histogram is [1,0,0,0,0,1,0,0,0,1]. The out-of-range values are dropped, 1.0 goes into the last bin and 0.0 into the first. |
| `Service.CountBins` | internal/service/service.go:209-222 | The binning loop fills a ten-element array in place. The result is the histogram of the inputs. |
| `Service.Chi2Sum` | internal/service/service.go:228-231 | The chi-squared sum over any bins, against a positive expectation, is never negative. |
| `Service.Chi2SumZeroWhenUniform` | internal/service/service.go:228-231 | Bins that each hold exactly the expected count give a chi-squared sum of zero. |
| `Service.Chi2Statistic` | internal/service/service.go:225-231 | The statistic of a non-empty p-value list is never negative. |
| `Service.ChiSquared` | internal/service/service.go:225-231 | The accumulation loop computes the chi-squared sum of the observed bins against the expected count. |
| `Service.CalculatePValueUniformity` | internal/service/service.go:202-239 | No input gives 0. Otherwise the result is the upper regularized incomplete gamma function at (9/2, chi2/2), where chi2 is the statistic of the inputs' histogram against len/10 per bin. |
| `Service.RatioBounds` | internal/service/service.go:147-149 | A passed/run ratio with passed ≤ run and run > 0 lies in [0, 1]. |
| `Service.RunTestSuite` | internal/service/service.go:42-175 | A validation failure returns that error, and an engine error returns `ExecutionFailed`; neither builds a response. Otherwise the response has one entry per engine result, in order, each `Convert` of its result. `SampleSizeBits` is 8·len. The counts are the int32 conversions of the tests run, skipped and returned. The pass rate is passed/run, or exactly 0 when nothing ran, and always lies in [0, 1]. The suite is compliant exactly when no result was skipped. The uniformity field is -1.0 with fewer than five real p-values and the meta p-value otherwise. With fewer than 2^31 results, run + skipped = total = len and passed ≤ run. |
| `Config.Validate` | internal/config/config.go:47-77 | Validation passes exactly when both ports lie in 1..65535, the log level is one of debug/info/warn/error, and authentication, when enabled, has a non-empty issuer and audience. The first failing check, in the order gRPC port, metrics port, log level, issuer, audience, decides the error. |
| `Config.ValidateIgnoresAuthFieldsWhenDisabled` | internal/config/config.go:67-74 | With authentication disabled, no change to the issuer, audience or JWKS URL changes the verdict. |
| `Config.ValidateRejectsTestConfigs` | internal/config/config_test.go:41-61 | The five configurations the repository's test expects to be refused are refused, each with its own error. |
| `Config.Getenv` | internal/config/config.go:81 | An unset variable reads as the empty string. A set one reads as its value. |
| `Config.GetEnvString` | internal/config/config.go:80-85 | The result is the default or a non-empty value of the variable. A non-empty value always wins. |
| `Config.GetEnvInt` | internal/config/config.go:88-95 | The result is the default or the parse of a non-empty value. A value that parses always wins. |
| `Config.GetEnvBool` | internal/config/config.go:98-105 | The result is the default or the parse of a non-empty value. A value that parses always wins. |
| `Config.GetEnvIntParseFailure` | internal/config/config_test.go:62-66 | A value that does not parse falls back to the default. |
| `Config.FromEnvironment` | internal/config/config.go:29-37 | Each field is read from its own variable. An unset or empty variable gives that field's default (9090, 9091, "info", false, "", "", ""). A port or authentication flag whose value does not parse also gets its default. A non-empty string variable gives its value, and a non-empty numeric or boolean variable that parses gives its parse. |
| `Config.FromEnvironmentReadsOnlyConfigKeys` | internal/config/config.go:29-37 | Two environments that agree on the seven configuration variables give the same configuration. |
| `Config.Load` | internal/config/config.go:28-43 | A loaded configuration is the one read from the environment, and it is always valid. Load fails exactly when validation of that configuration fails, and then wraps the validation error. |
| `Config.LoadDefaults` | internal/config/config_test.go:69-96 | With the seven configuration variables unset or empty, whatever else the environment holds, Load succeeds with ports 9090 and 9091, log level "info", authentication off and empty authentication strings. This holds for any parsers. |
| `Config.LoadOverrides` | internal/config/config_test.go:7-39 | With the seven settings of the repository's override test present, whatever else the environment holds, each loads as given, assuming the parsers read "5000", "6000" and "true" as expected. |
| `Config.LoadRejectsPortZero` | internal/config/config_test.go:98-104 | GRPC_PORT=0 makes Load fail with the gRPC port error. |

## Left out

- The statistical engine (`nist.RunAllTests`) is not part of this model. It
  is the `runAllTests` parameter. `nist.MinBits` and `nist.MaxBits` are
  constants set to 387,840 and 10,000,000 bits, the values the comments in
  service.go and service_test.go give.
- `mathext.GammaIncRegComp` is a foreign numerical routine. It is the
  `gammaQ` parameter, so the range of the uniformity p-value is not proved.
- p-values, the pass rate and the chi-squared sum are exact reals. Float64
  rounding is not modelled, and neither is NaN. A NaN p-value would pass
  the `< 0` and range guards in the Go code.
- For p in [0, 1], Go's `int(p * 10)` truncates toward zero. The model takes
  the floor of the exact product, which agrees for non-negative values.
- Service.Chi2SumZeroWhenUniform: proves only that bins holding the
  expected count give zero. The converse, that zero means every bin holds
  the expected count, is not proved; it needs non-linear reasoning about
  real squares.
- Service.Convert / Service.ConvertResults: the model gives each entry its
  own proportion and warning. The Go code stores `&result.Proportion` and
  `&result.Warning` of the loop variable (internal/service/service.go:95,
  106, 133, 137). That is correct under Go 1.22 and later, where each
  iteration has its own variable; under older semantics every entry would
  point at the last result's fields. go.mod is not part of this model, so
  the Go version is assumed to be 1.22 or later.
- Logging, Prometheus metrics, the request UUID, the timestamp and
  `ExecutionTimeMs` are I/O or clock readings. They are not modelled.
- `os.Getenv`, `strconv.Atoi` and `strconv.ParseBool` are replaced by an
  environment map and parser parameters.
- cmd/server/main.go is left out: server setup, TLS, the authentication
  interceptor, signal handling and goroutines.
