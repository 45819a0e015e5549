/**
 * The outcome of one speed test of a DNS server, its quality rating and
 * stability score, and the configuration a test runs with.
 */
module DnsTestResults {
  import opened KotlinLong

  /**
   * Aggregate of one speed test. Pings are milliseconds; `packetLoss` is a
   * percentage, kept as an exact rational.
   */
  datatype DnsTestResult = DnsTestResult(
    dnsServerId: int,
    dnsServerName: string,
    avgPing: int,
    minPing: int,
    maxPing: int,
    packetLoss: real,
    timestamp: int,
    isSuccess: bool,
    testCount: int)

  datatype DnsQuality = Excellent | Good | Fair | Poor | VeryPoor | Failed

  /** Position of a rating, from the best (0) to the worst (5). */
  function QualityRank(q: DnsQuality): nat {
    match q
    case Excellent => 0
    case Good => 1
    case Fair => 2
    case Poor => 3
    case VeryPoor => 4
    case Failed => 5
  }

  /** The rating a result earns: failed tests are `Failed`, the rest are banded by average ping. */
  function QualityRating(r: DnsTestResult): (q: DnsQuality)
    ensures q == Failed <==> !r.isSuccess
    ensures q == Excellent <==> r.isSuccess && r.avgPing < 20
    ensures q == Good <==> r.isSuccess && 20 <= r.avgPing < 50
    ensures q == Fair <==> r.isSuccess && 50 <= r.avgPing < 100
    ensures q == Poor <==> r.isSuccess && 100 <= r.avgPing < 200
    ensures q == VeryPoor <==> r.isSuccess && 200 <= r.avgPing
  {
    if !r.isSuccess then Failed
    else if r.avgPing < 20 then Excellent
    else if r.avgPing < 50 then Good
    else if r.avgPing < 100 then Fair
    else if r.avgPing < 200 then Poor
    else VeryPoor
  }

  /** A slower successful result never earns a better rating, and a failed one is rated worst. */
  lemma QualityMonotone(a: DnsTestResult, b: DnsTestResult)
    requires a.isSuccess ==> b.isSuccess ==> a.avgPing <= b.avgPing
    requires b.isSuccess ==> a.isSuccess
    ensures QualityRank(QualityRating(a)) <= QualityRank(QualityRating(b))
  {
  }

  /** `"<avg>ms"` for a successful result, `"Failed"` otherwise. */
  function FormattedPing(r: DnsTestResult): (s: string)
    ensures !r.isSuccess ==> s == "Failed"
    ensures r.isSuccess ==> |s| >= 3 && s[|s| - 2..] == "ms"
  {
    if r.isSuccess then IntToString(r.avgPing) + "ms" else "Failed"
  }

  /** The number in front of `"ms"` reads back as the average ping. */
  lemma FormattedPingReadsBack(r: DnsTestResult)
    requires r.isSuccess
    ensures var s := FormattedPing(r); ParseInt(s[..|s| - 2]) == r.avgPing
  {
    var s := FormattedPing(r);
    assert s[..|s| - 2] == IntToString(r.avgPing);
    IntToStringRoundTrip(r.avgPing);
  }

  /** Stability from the spread between the slowest and the fastest sample. */
  function StabilityScore(r: DnsTestResult): (score: int)
    ensures score in {0, 20, 40, 60, 80, 100}
    ensures score == 0 <==> !r.isSuccess
    ensures r.isSuccess && r.maxPing - r.minPing < 10 ==> score == 100
    ensures r.isSuccess && 10 <= r.maxPing - r.minPing < 30 ==> score == 80
    ensures r.isSuccess && 30 <= r.maxPing - r.minPing < 50 ==> score == 60
    ensures r.isSuccess && 50 <= r.maxPing - r.minPing < 100 ==> score == 40
    ensures r.isSuccess && 100 <= r.maxPing - r.minPing ==> score == 20
  {
    if !r.isSuccess then 0
    else
      var variance := r.maxPing - r.minPing;
      if variance < 10 then 100
      else if variance < 30 then 80
      else if variance < 50 then 60
      else if variance < 100 then 40
      else 20
  }

  /** A wider spread never yields a higher stability score. */
  lemma StabilityMonotone(a: DnsTestResult, b: DnsTestResult)
    requires a.isSuccess && b.isSuccess
    requires a.maxPing - a.minPing <= b.maxPing - b.minPing
    ensures StabilityScore(b) <= StabilityScore(a)
  {
  }

  /** How a speed test runs: samples taken, per-sample timeout (ms), domain looked up, pause between samples (ms). */
  datatype DnsTestConfig = DnsTestConfig(
    testCount: int,
    timeout: int,
    testDomain: string,
    delayBetweenTests: int)

  const DefaultTestDomain: string := "www.google.com"

  /** `DnsTestConfig()` with every parameter left at its default. */
  function DefaultConfig(): (c: DnsTestConfig)
    ensures c.testCount == 5 && c.timeout == 5000
    ensures c.testDomain == "www.google.com" && c.delayBetweenTests == 100
  {
    DnsTestConfig(5, 5000, DefaultTestDomain, 100)
  }
}
