/**
 * Which clock the read path uses (`getCurrentTimeMs`): when the environment
 * sets the test-mode flag to "1", a non-empty `x-test-now-ms` header whose
 * numeric value is a number greater than zero is taken as the current time;
 * otherwise the system clock is.
 *
 * The environment lookup, the header lookup, `Number(header)` and
 * `Date.now()` are parameters.
 */
module Clock {
  import opened Wrappers
  import opened JsValues

  const TestModeOn: string := "1"

  /** Whether the test-mode variable switches test mode on. */
  predicate InTestMode(testModeEnv: Option<string>) {
    testModeEnv == Some(TestModeOn)
  }

  /** A header value other than `null` and `""` (JavaScript truthiness of a string). */
  predicate Supplied(header: Option<string>) {
    header.Some? && header.value != ""
  }

  /**
   * A parsed header the clock accepts: not NaN and greater than zero. The NaN
   * test excludes nothing that `> 0` does not already exclude; it is kept
   * because the handler writes both.
   */
  predicate UsableTime(parsed: JsNumber) {
    !IsNaN(parsed) && GreaterThan(parsed, 0.0)
  }

  /**
   * The current time in milliseconds. `testModeEnv` is the test-mode variable,
   * `header` the `x-test-now-ms` value, `numberOf` what `Number(...)` gives for
   * a string, `systemNowMs` what the system clock reads.
   */
  function CurrentTimeMs(testModeEnv: Option<string>, header: Option<string>,
                         numberOf: string -> JsNumber, systemNowMs: int): (now: JsNumber)
    ensures !InTestMode(testModeEnv) ==> now == Finite(systemNowMs as real)
    ensures !Supplied(header) ==> now == Finite(systemNowMs as real)
    ensures Supplied(header) && !UsableTime(numberOf(header.value)) ==> now == Finite(systemNowMs as real)
    ensures InTestMode(testModeEnv) && Supplied(header) && UsableTime(numberOf(header.value)) ==>
              now == numberOf(header.value)
  {
    if InTestMode(testModeEnv) then
      if Supplied(header) then
        var parsed := numberOf(header.value);
        if UsableTime(parsed) then parsed else Finite(systemNowMs as real)
      else Finite(systemNowMs as real)
    else Finite(systemNowMs as real)
  }

  /**
   * The clock either reads the system or reports a header time that is
   * strictly positive, so a positive system clock gives a positive time.
   */
  lemma CurrentTimeIsSystemOrPositive(testModeEnv: Option<string>, header: Option<string>,
                                      numberOf: string -> JsNumber, systemNowMs: int)
    ensures var now := CurrentTimeMs(testModeEnv, header, numberOf, systemNowMs);
      now == Finite(systemNowMs as real) || (Supplied(header) && now == numberOf(header.value) && GreaterThan(now, 0.0))
    ensures systemNowMs > 0 ==> GreaterThan(CurrentTimeMs(testModeEnv, header, numberOf, systemNowMs), 0.0)
  {
  }

  /** Outside test mode the header and its parsing have no influence at all. */
  lemma HeaderIgnoredOutsideTestMode(testModeEnv: Option<string>,
                                     header1: Option<string>, numberOf1: string -> JsNumber,
                                     header2: Option<string>, numberOf2: string -> JsNumber,
                                     systemNowMs: int)
    requires !InTestMode(testModeEnv)
    ensures CurrentTimeMs(testModeEnv, header1, numberOf1, systemNowMs)
         == CurrentTimeMs(testModeEnv, header2, numberOf2, systemNowMs)
  {
  }

  /** Concrete cases: "0", "-5" and "abc" fall back to the system clock; "1700000000000" is used. */
  lemma HeaderExamples(numberOf: string -> JsNumber, systemNowMs: int)
    requires numberOf("0") == FromInt(0) && numberOf("-5") == FromInt(-5) && numberOf("abc") == NaN
    requires numberOf("1700000000000") == FromInt(1700000000000)
    ensures CurrentTimeMs(Some("1"), Some("0"), numberOf, systemNowMs) == Finite(systemNowMs as real)
    ensures CurrentTimeMs(Some("1"), Some("-5"), numberOf, systemNowMs) == Finite(systemNowMs as real)
    ensures CurrentTimeMs(Some("1"), Some("abc"), numberOf, systemNowMs) == Finite(systemNowMs as real)
    ensures CurrentTimeMs(Some("1"), Some("1700000000000"), numberOf, systemNowMs) == FromInt(1700000000000)
    ensures CurrentTimeMs(Some("true"), Some("1700000000000"), numberOf, systemNowMs) == Finite(systemNowMs as real)
  {
  }
}
