/** Choosing the best server, for a given test configuration or for the gaming preset. */
module GetBestDnsUseCase {
  import opened Wrappers
  import opened Lists
  import opened DnsTestResults
  import opened DnsServers
  import opened DnsTestService

  /** `findBest`: hands the servers and the configuration to `findBestDns`. */
  method FindBest(dnsServers: seq<DnsServer>, config: DnsTestConfig, runs: seq<ProbeRun>)
    returns (best: Option<(DnsServer, DnsTestResult)>)
    requires RunsFit(dnsServers, config, runs)
    ensures best == BestOf(dnsServers, MultipleResults(dnsServers, config, runs))
  {
    best := FindBestDns(dnsServers, config, runs);
  }

  /** The gaming preset: fewer, faster tests on the default test domain. */
  function GamingConfig(): (c: DnsTestConfig)
    ensures c.testCount == 3 && c.timeout == 3000 && c.delayBetweenTests == 50
    ensures c.testDomain == DefaultConfig().testDomain
  {
    DnsTestConfig(3, 3000, DefaultTestDomain, 50)
  }

  /**
   * `findBestForGaming`: `findBest` with the gaming preset. A server is
   * chosen exactly when one of the preset tests succeeded; the chosen result
   * ran three iterations and each of its pings was under 3000 ms.
   */
  method FindBestForGaming(dnsServers: seq<DnsServer>, runs: seq<ProbeRun>)
    returns (best: Option<(DnsServer, DnsTestResult)>)
    requires RunsFit(dnsServers, GamingConfig(), runs)
    ensures best == BestOf(dnsServers, MultipleResults(dnsServers, GamingConfig(), runs))
    ensures best.None? <==>
      forall i :: 0 <= i < |dnsServers| ==> !MultipleResults(dnsServers, GamingConfig(), runs)[i].isSuccess
    ensures best.Some? ==> best.value.1.isSuccess && best.value.1.testCount == 3
    ensures best.Some? ==> best.value.1.minPing <= best.value.1.avgPing <= best.value.1.maxPing < 3000
  {
    var config := GamingConfig();
    best := FindBest(dnsServers, config, runs);
    BestOfTestedServers(dnsServers, config, runs);
  }

  /** Three lookups, all answered, taking the given times. */
  function ThreeAnswers(a: int, b: int, c: int, finishedAt: int): ProbeRun {
    ProbeRun([Sample(true, a), Sample(true, b), Sample(true, c)], finishedAt)
  }

  /** Three answered lookups under the preset timeout give a successful result with these statistics. */
  lemma {:induction false} ThreeAnswersResult(server: DnsServer, a: int, b: int, c: int, finishedAt: int)
    requires 0 <= a < 3000 && 0 <= b < 3000 && 0 <= c < 3000
    ensures var r := SpeedTestResult(server, GamingConfig(), ThreeAnswers(a, b, c, finishedAt));
      && r.isSuccess
      && r.avgPing == (a + b + c) / 3
      && r.packetLoss == 0.0
  {
    ThreeAnswersRecorded(a, b, c, finishedAt);
    MeanOfThree(a, b, c);
  }

  lemma {:induction false} ThreeAnswersRecorded(a: int, b: int, c: int, finishedAt: int)
    requires a < 3000 && b < 3000 && c < 3000
    ensures Recorded(ThreeAnswers(a, b, c, finishedAt).samples, 3000) == [a, b, c]
  {
    var s := ThreeAnswers(a, b, c, finishedAt).samples;
    assert s[..1][..0] == s[..0] == [];
    assert Recorded(s[..1], 3000) == [a];
    assert s[..2][..1] == s[..1];
    assert Recorded(s[..2], 3000) == [a, b];
    assert s[..3][..2] == s[..2] && s[..3] == s;
  }

  lemma {:induction false} MeanOfThree(a: int, b: int, c: int)
    requires 0 <= a && 0 <= b && 0 <= c
    ensures TruncatedMean([a, b, c]) == (a + b + c) / 3
  {
    assert [a, b, c][1..] == [b, c] && [b, c][1..] == [c] && [c][1..] == [];
    assert Sum([c]) == c + Sum([]);
    assert Sum([b, c]) == b + Sum([c]);
    assert Sum([a, b, c]) == a + Sum([b, c]);
    KotlinLong.QuotRemNonNegative(a + b + c, 3);
  }

  /** Of two successful results of servers with ids 1 and 2, a strictly faster second one wins. */
  lemma {:induction false} SecondFaster(servers: seq<DnsServer>, results: seq<DnsTestResult>)
    requires |servers| == 2 && servers[0].id == 1 && servers[1].id == 2
    requires |results| == 2 && results[0].dnsServerId == 1 && results[1].dnsServerId == 2
    requires results[0].isSuccess && results[1].isSuccess
    requires results[1].avgPing < results[0].avgPing
    ensures BestOf(servers, results) == Some((servers[1], results[1]))
  {
    assert Succeeded(results[0]);
    BestOfMatchingResults(servers, results);
    assert DistinctIds(servers);
  }

  /**
   * Google answering in 30, 32 and 31 ms and Cloudflare in 10, 12 and 11 ms:
   * the gaming preset picks Cloudflare, with an average of 11 ms.
   */
  lemma {:induction false} GamingPicksCloudflare(google: DnsServer, cloudflare: DnsServer, t1: int, t2: int)
    requires google.id == 1 && cloudflare.id == 2
    ensures var servers, runs := [google, cloudflare], [ThreeAnswers(30, 32, 31, t1), ThreeAnswers(10, 12, 11, t2)];
      var best := BestOf(servers, MultipleResults(servers, GamingConfig(), runs));
      best.Some? && best.value.0 == cloudflare && best.value.1.avgPing == 11
  {
    var servers, runs := [google, cloudflare], [ThreeAnswers(30, 32, 31, t1), ThreeAnswers(10, 12, 11, t2)];
    var results := MultipleResults(servers, GamingConfig(), runs);
    ThreeAnswersResult(google, 30, 32, 31, t1);
    ThreeAnswersResult(cloudflare, 10, 12, 11, t2);
    SecondFaster(servers, results);
  }
}
