/**
 * Speed tests of DNS servers: a run of timed lookups folded into a
 * `DnsTestResult`, one such test per server of a list, and the choice of the
 * fastest server.
 *
 * The network is not modelled. Each lookup is an observation handed in from
 * outside: whether the lookup returned true and how many milliseconds the two
 * clock readings around it were apart. The clock reading that stamps a
 * result is an input as well.
 */
module DnsTestService {
  import opened Wrappers
  import opened Lists
  import opened KotlinLong
  import opened DnsTestResults
  import opened DnsServers

  /** What one iteration of a test observes: the lookup outcome and the elapsed time. */
  datatype Sample = Sample(lookupOk: bool, elapsedMs: int)

  /** The observations of one test: a sample per iteration and the clock reading at the end. */
  datatype ProbeRun = ProbeRun(samples: seq<Sample>, finishedAt: int)

  /** The pause after each server's test in `testMultipleDns`, in milliseconds. */
  const PauseBetweenServersMs: int := 200

  /** `repeat(n)` runs its block `n` times, and not at all when `n` is not positive. */
  function Iterations(config: DnsTestConfig): (n: nat)
    ensures config.testCount > 0 ==> n == config.testCount
    ensures config.testCount <= 0 ==> n == 0
  {
    if config.testCount > 0 then config.testCount else 0
  }

  /** A run fits a configuration when it has one sample per iteration. */
  predicate Fits(config: DnsTestConfig, run: ProbeRun) {
    |run.samples| == Iterations(config)
  }

  /** A sample is kept when the lookup succeeded and finished strictly before the timeout. */
  predicate Recordable(s: Sample, timeout: int) {
    s.lookupOk && s.elapsedMs < timeout
  }

  /** The predicate `Recordable(_, timeout)` as a value, for filtering. */
  function RecordableWithin(timeout: int): Sample -> bool {
    (s: Sample) => Recordable(s, timeout)
  }

  /** The pings `testDnsSpeed` appends to its list, sample by sample. */
  function Recorded(samples: seq<Sample>, timeout: int): (pings: seq<int>)
    ensures |pings| <= |samples|
    ensures forall i :: 0 <= i < |pings| ==> pings[i] < timeout
    ensures pings == [] <==> forall i :: 0 <= i < |samples| ==> !Recordable(samples[i], timeout)
    ensures |pings| == |samples| <==> forall i :: 0 <= i < |samples| ==> Recordable(samples[i], timeout)
    decreases |samples|
  {
    if samples == [] then []
    else
      var init, last := samples[..|samples| - 1], samples[|samples| - 1];
      assert forall i :: 0 <= i < |init| ==> init[i] == samples[i];
      Recorded(init, timeout) + (if Recordable(last, timeout) then [last.elapsedMs] else [])
  }

  /** One more sample adds its ping when it is recordable. */
  lemma {:induction false} RecordedStep(samples: seq<Sample>, i: nat, timeout: int)
    requires i < |samples|
    ensures Recorded(samples[..i + 1], timeout) ==
      Recorded(samples[..i], timeout) + (if Recordable(samples[i], timeout) then [samples[i].elapsedMs] else [])
  {
    assert samples[..i + 1][..i] == samples[..i];
  }

  /** The elapsed times of a list of samples. */
  function Elapsed(samples: seq<Sample>): (r: seq<int>)
    ensures |r| == |samples|
  {
    seq(|samples|, i requires 0 <= i < |samples| => samples[i].elapsedMs)
  }

  /**
   * The recorded pings are the elapsed times of the recordable samples, in
   * sample order, and nothing else.
   */
  lemma {:induction false} RecordedIsFiltered(samples: seq<Sample>, timeout: int)
    ensures Recorded(samples, timeout) == Elapsed(Filter(samples, RecordableWithin(timeout)))
    decreases |samples|
  {
    if samples != [] {
      var p := RecordableWithin(timeout);
      var init, last := samples[..|samples| - 1], samples[|samples| - 1];
      RecordedIsFiltered(init, timeout);
      assert samples == init + [last];
      FilterConcat(init, [last], p);
      assert [last][1..] == [];
      assert Filter([last], p) == if Recordable(last, timeout) then [last] else [];
      var a, b := Filter(init, p), Filter([last], p);
      assert Elapsed(a + b) == Elapsed(a) + Elapsed(b);
    }
  }

  function Sum(s: seq<int>): int {
    if s == [] then 0 else s[0] + Sum(s[1..])
  }

  /** `minOrNull` on a non-empty list. */
  function Minimum(s: seq<int>): (m: int)
    requires s != []
    ensures m in s
    ensures forall i :: 0 <= i < |s| ==> m <= s[i]
  {
    if |s| == 1 then s[0]
    else
      var rest := Minimum(s[1..]);
      assert forall i :: 1 <= i < |s| ==> s[i] == s[1..][i - 1];
      if s[0] <= rest then s[0] else rest
  }

  /** `maxOrNull` on a non-empty list. */
  function Maximum(s: seq<int>): (m: int)
    requires s != []
    ensures m in s
    ensures forall i :: 0 <= i < |s| ==> s[i] <= m
  {
    if |s| == 1 then s[0]
    else
      var rest := Maximum(s[1..]);
      assert forall i :: 1 <= i < |s| ==> s[i] == s[1..][i - 1];
      if s[0] >= rest then s[0] else rest
  }

  /** A sum of values between `lo` and `hi` lies between `|s| * lo` and `|s| * hi`. */
  lemma {:induction false} SumBetween(s: seq<int>, lo: int, hi: int)
    requires forall i :: 0 <= i < |s| ==> lo <= s[i] <= hi
    ensures |s| * lo <= Sum(s) <= |s| * hi
  {
    if s != [] {
      assert forall i :: 0 <= i < |s[1..]| ==> s[1..][i] == s[i + 1];
      SumBetween(s[1..], lo, hi);
    }
  }

  /** `average().toLong()`: the exact mean truncated toward zero. */
  function TruncatedMean(s: seq<int>): (avg: int)
    requires s != []
    ensures Minimum(s) <= avg <= Maximum(s)
  {
    SumBetween(s, Minimum(s), Maximum(s));
    QuotBetween(Sum(s), |s|, Minimum(s), Maximum(s));
    Quot(Sum(s), |s|)
  }

  /** The loss percentage: the share of iterations without a recorded ping, times 100. */
  function PacketLoss(testCount: int, successCount: int): real
    requires testCount > 0
  {
    ((testCount - successCount) as real / testCount as real) * 100.0
  }

  /** The loss lies in [0, 100], is 0 exactly when every iteration succeeded and 100 exactly when none did. */
  lemma {:induction false} PacketLossBounds(testCount: int, successCount: int)
    requires 0 <= successCount <= testCount && testCount > 0
    ensures 0.0 <= PacketLoss(testCount, successCount) <= 100.0
    ensures PacketLoss(testCount, successCount) == 0.0 <==> successCount == testCount
    ensures PacketLoss(testCount, successCount) == 100.0 <==> successCount == 0
  {
    var n, k := testCount as real, successCount as real;
    var share := (n - k) / n;
    assert share * n == n - k;
    if share == 1.0 { assert k == 0.0; }
  }

  /**
   * What `testDnsSpeed` returns for a run: the statistics of the recorded
   * pings when there is at least one, the degraded result otherwise.
   */
  function SpeedTestResult(dnsServer: DnsServer, config: DnsTestConfig, run: ProbeRun): (r: DnsTestResult)
    requires Fits(config, run)
    ensures r.dnsServerId == dnsServer.id && r.dnsServerName == dnsServer.name
    ensures r.testCount == config.testCount && r.timestamp == run.finishedAt
    ensures r.isSuccess <==> exists i :: 0 <= i < |run.samples| && Recordable(run.samples[i], config.timeout)
    ensures r.isSuccess ==>
              var pings := Recorded(run.samples, config.timeout);
              && (forall i :: 0 <= i < |pings| ==> r.minPing <= pings[i] <= r.maxPing)
              && r.minPing in pings && r.maxPing in pings
              && r.minPing <= r.avgPing <= r.maxPing
              && r.maxPing < config.timeout
    ensures !r.isSuccess ==> r.avgPing == 0 && r.minPing == 0 && r.maxPing == 0 && r.packetLoss == 100.0
    ensures 0.0 <= r.packetLoss <= 100.0
    ensures r.packetLoss == 0.0 <==>
              config.testCount > 0 && forall i :: 0 <= i < |run.samples| ==> Recordable(run.samples[i], config.timeout)
  {
    var pings := Recorded(run.samples, config.timeout);
    if pings != [] then
      PacketLossBounds(config.testCount, |pings|);
      DnsTestResult(
        dnsServer.id, dnsServer.name,
        TruncatedMean(pings), Minimum(pings), Maximum(pings),
        PacketLoss(config.testCount, |pings|),
        run.finishedAt, true, config.testCount)
    else
      DnsTestResult(dnsServer.id, dnsServer.name, 0, 0, 0, 100.0, run.finishedAt, false, config.testCount)
  }

  /** A successful result carries the truncated mean, the minimum and the maximum of the kept pings. */
  lemma {:induction false} SpeedTestStatistics(dnsServer: DnsServer, config: DnsTestConfig, run: ProbeRun)
    requires Fits(config, run)
    ensures var r, pings := SpeedTestResult(dnsServer, config, run), Recorded(run.samples, config.timeout);
      r.isSuccess ==>
        && r.avgPing == Quot(Sum(pings), |pings|)
        && r.minPing == Minimum(pings) && r.maxPing == Maximum(pings)
  {
  }

  /** The loss and the share of kept pings, both in percent, add up to 100. */
  lemma {:induction false} LossComplementsSuccess(testCount: int, successCount: int)
    requires testCount > 0
    ensures PacketLoss(testCount, successCount) + 100.0 * (successCount as real) / (testCount as real) == 100.0
  {
    var n, k := testCount as real, successCount as real;
    assert ((n - k) / n) * n == n - k;
    assert (k / n) * n == k;
    assert ((n - k) / n) + (k / n) == 1.0;
  }

  /** With at least one iteration, the loss is 100 minus the percentage of kept pings. */
  lemma {:induction false} SpeedTestLoss(dnsServer: DnsServer, config: DnsTestConfig, run: ProbeRun)
    requires Fits(config, run) && config.testCount > 0
    ensures var r, kept := SpeedTestResult(dnsServer, config, run), |Recorded(run.samples, config.timeout)|;
      r.packetLoss + 100.0 * (kept as real) / (config.testCount as real) == 100.0
  {
    var pings := Recorded(run.samples, config.timeout);
    var r := SpeedTestResult(dnsServer, config, run);
    LossComplementsSuccess(config.testCount, |pings|);
    if pings == [] {
      PacketLossBounds(config.testCount, 0);
    }
    assert r.packetLoss == PacketLoss(config.testCount, |pings|);
  }

  /**
   * `testDnsSpeed`: runs the iterations, keeping the ping of each recordable
   * sample, and pauses between consecutive iterations. `delays` counts the
   * `delay(config.delayBetweenTests)` calls.
   */
  method TestDnsSpeed(dnsServer: DnsServer, config: DnsTestConfig, run: ProbeRun)
    returns (result: DnsTestResult, delays: nat)
    requires Fits(config, run)
    ensures result == SpeedTestResult(dnsServer, config, run)
    ensures delays == if config.testCount > 0 then config.testCount - 1 else 0
  {
    var n := Iterations(config);
    var pingResults: seq<int> := [];
    var successCount := 0;
    var iteration := 0;
    delays := 0;
    while iteration < n
      invariant 0 <= iteration <= n
      invariant pingResults == Recorded(run.samples[..iteration], config.timeout)
      invariant successCount == |pingResults| <= iteration
      invariant iteration < n ==> delays == iteration
      invariant iteration == n ==> delays == if n > 0 then n - 1 else 0
    {
      RecordedStep(run.samples, iteration, config.timeout);
      var sample := run.samples[iteration];
      var pingTime := sample.elapsedMs;
      if sample.lookupOk && pingTime < config.timeout {
        pingResults := pingResults + [pingTime];
        successCount := successCount + 1;
      }
      if iteration < config.testCount - 1 {
        delays := delays + 1;
      }
      iteration := iteration + 1;
    }
    assert run.samples[..iteration] == run.samples;
    assert pingResults == Recorded(run.samples, config.timeout);
    if pingResults != [] {
      var avgPing := TruncatedMean(pingResults);
      var minPing := Minimum(pingResults);
      var maxPing := Maximum(pingResults);
      var packetLoss := PacketLoss(config.testCount, successCount);
      result := DnsTestResult(
        dnsServer.id, dnsServer.name, avgPing, minPing, maxPing, packetLoss,
        run.finishedAt, true, config.testCount);
    } else {
      result := DnsTestResult(dnsServer.id, dnsServer.name, 0, 0, 0, 100.0, run.finishedAt, false, config.testCount);
    }
  }

  /** One run per server, each fitting the configuration. */
  predicate RunsFit(servers: seq<DnsServer>, config: DnsTestConfig, runs: seq<ProbeRun>) {
    |runs| == |servers| && forall i :: 0 <= i < |runs| ==> Fits(config, runs[i])
  }

  /** What `testMultipleDns` returns: the test of each server, in list order. */
  function MultipleResults(servers: seq<DnsServer>, config: DnsTestConfig, runs: seq<ProbeRun>): (r: seq<DnsTestResult>)
    requires RunsFit(servers, config, runs)
    ensures |r| == |servers|
    ensures forall i :: 0 <= i < |r| ==>
              r[i].dnsServerId == servers[i].id && r[i].dnsServerName == servers[i].name && r[i].testCount == config.testCount
  {
    seq(|servers|, i requires 0 <= i < |servers| => SpeedTestResult(servers[i], config, runs[i]))
  }

  /**
   * `testMultipleDns`: tests the servers one after the other, appending each
   * result. `pauses` counts the 200 ms pauses, one after every server.
   */
  method TestMultipleDns(dnsServers: seq<DnsServer>, config: DnsTestConfig, runs: seq<ProbeRun>)
    returns (results: seq<DnsTestResult>, pauses: nat)
    requires RunsFit(dnsServers, config, runs)
    ensures results == MultipleResults(dnsServers, config, runs)
    ensures pauses == |dnsServers|
  {
    results := [];
    pauses := 0;
    var k := 0;
    while k < |dnsServers|
      invariant 0 <= k <= |dnsServers|
      invariant results == MultipleResults(dnsServers, config, runs)[..k]
      invariant pauses == k
    {
      var result, _ := TestDnsSpeed(dnsServers[k], config, runs[k]);
      results := results + [result];
      pauses := pauses + 1;
      k := k + 1;
    }
  }

  function Succeeded(r: DnsTestResult): bool {
    r.isSuccess
  }

  function AvgPingOf(r: DnsTestResult): int {
    r.avgPing
  }

  /** The predicate "has this id" as a value, for `find`. */
  function HasId(id: int): DnsServer -> bool {
    (s: DnsServer) => s.id == id
  }

  /** The head of the successful results sorted by average ping, if any succeeded. */
  function BestResult(results: seq<DnsTestResult>): (r: Option<DnsTestResult>)
    ensures r.None? <==> forall i :: 0 <= i < |results| ==> !results[i].isSuccess
  {
    var successful := SortedBy(Filter(results, Succeeded), AvgPingOf);
    if successful != [] then Some(successful[0]) else None
  }

  /**
   * The choice `findBestDns` makes from the results: the best result paired
   * with the first server carrying its id, or null when nothing succeeded or
   * no server carries that id.
   */
  function BestOf(dnsServers: seq<DnsServer>, results: seq<DnsTestResult>): (r: Option<(DnsServer, DnsTestResult)>)
    ensures r.Some? ==> r.value.0 in dnsServers && r.value.0.id == r.value.1.dnsServerId
    ensures r.Some? ==> BestResult(results) == Some(r.value.1)
    ensures BestResult(results).None? ==> r.None?
  {
    match BestResult(results)
    case None => None
    case Some(best) =>
      match Find(dnsServers, HasId(best.dnsServerId))
      case None => None
      case Some(dns) => Some((dns, best))
  }

  /**
   * The stable sort followed by `first()` picks the first result with the
   * least average ping among the successful ones: it succeeded, no successful
   * result is faster, and every earlier successful result is slower.
   */
  lemma {:induction false} BestResultIsFirstMinimum(results: seq<DnsTestResult>)
    requires exists i :: 0 <= i < |results| && results[i].isSuccess
    ensures Filter(results, Succeeded) != []
    ensures BestResult(results) == Some(results[FirstMinWhere(results, Succeeded, AvgPingOf)])
    ensures IsFirstMinWhere(results, Succeeded, AvgPingOf, FirstMinWhere(results, Succeeded, AvgPingOf))
  {
    var f := Filter(results, Succeeded);
    SortedByHead(f, AvgPingOf);
    MinByOfFilter(results, Succeeded, AvgPingOf);
  }

  /** `find` by id picks the only server with that id when ids are distinct. */
  lemma {:induction false} FindDistinctId(dnsServers: seq<DnsServer>, i: int)
    requires 0 <= i < |dnsServers|
    requires forall j, k :: 0 <= j < k < |dnsServers| ==> dnsServers[j].id != dnsServers[k].id
    ensures Find(dnsServers, HasId(dnsServers[i].id)) == Some(dnsServers[i])
  {
    var r := Find(dnsServers, HasId(dnsServers[i].id));
    assert HasId(dnsServers[i].id)(dnsServers[i]);
    var j :| 0 <= j < |dnsServers| && dnsServers[j] == r.value && forall k :: 0 <= k < j ==> !HasId(dnsServers[i].id)(dnsServers[k]);
    assert HasId(dnsServers[i].id)(dnsServers[j]);
  }

  ghost predicate DistinctIds(dnsServers: seq<DnsServer>) {
    forall j, k :: 0 <= j < k < |dnsServers| ==> dnsServers[j].id != dnsServers[k].id
  }

  /**
   * When result `i` belongs to server `i` for every `i`, `findBestDns` is
   * null exactly when no result succeeded. Otherwise its result is the first
   * fastest successful one; with distinct ids its server is the one that
   * result belongs to.
   */
  lemma {:induction false} BestOfMatchingResults(dnsServers: seq<DnsServer>, results: seq<DnsTestResult>)
    requires |results| == |dnsServers|
    requires forall i :: 0 <= i < |results| ==> results[i].dnsServerId == dnsServers[i].id
    ensures BestOf(dnsServers, results).None? <==> forall i :: 0 <= i < |results| ==> !results[i].isSuccess
    ensures BestOf(dnsServers, results).Some? ==>
              Filter(results, Succeeded) != [] &&
              var i := FirstMinWhere(results, Succeeded, AvgPingOf);
              && IsFirstMinWhere(results, Succeeded, AvgPingOf, i)
              && BestOf(dnsServers, results).value.1 == results[i]
              && (DistinctIds(dnsServers) ==> BestOf(dnsServers, results).value.0 == dnsServers[i])
  {
    if exists i :: 0 <= i < |results| && results[i].isSuccess {
      BestResultIsFirstMinimum(results);
      var i := FirstMinWhere(results, Succeeded, AvgPingOf);
      assert HasId(results[i].dnsServerId)(dnsServers[i]);
      if DistinctIds(dnsServers) {
        FindDistinctId(dnsServers, i);
      }
    }
  }

  /** The same facts for the results of actually testing the servers. */
  lemma {:induction false} BestOfTestedServers(dnsServers: seq<DnsServer>, config: DnsTestConfig, runs: seq<ProbeRun>)
    requires RunsFit(dnsServers, config, runs)
    ensures var results := MultipleResults(dnsServers, config, runs);
            BestOf(dnsServers, results).None? <==> forall i :: 0 <= i < |results| ==> !results[i].isSuccess
    ensures var results := MultipleResults(dnsServers, config, runs);
            BestOf(dnsServers, results).Some? ==>
              Filter(results, Succeeded) != [] &&
              var i := FirstMinWhere(results, Succeeded, AvgPingOf);
              && IsFirstMinWhere(results, Succeeded, AvgPingOf, i)
              && BestOf(dnsServers, results).value.1 == results[i]
              && (DistinctIds(dnsServers) ==> BestOf(dnsServers, results).value.0 == dnsServers[i])
  {
    BestOfMatchingResults(dnsServers, MultipleResults(dnsServers, config, runs));
  }

  /**
   * `findBestDns`: tests every server, then picks the first fastest successful
   * result and looks its server up by id.
   */
  method FindBestDns(dnsServers: seq<DnsServer>, config: DnsTestConfig, runs: seq<ProbeRun>)
    returns (best: Option<(DnsServer, DnsTestResult)>)
    requires RunsFit(dnsServers, config, runs)
    ensures best == BestOf(dnsServers, MultipleResults(dnsServers, config, runs))
  {
    var results, _ := TestMultipleDns(dnsServers, config, runs);
    var successfulResults := SortedBy(Filter(results, Succeeded), AvgPingOf);
    if successfulResults != [] {
      var bestResult := successfulResults[0];
      var bestDns := Find(dnsServers, HasId(bestResult.dnsServerId));
      if bestDns.Some? {
        best := Some((bestDns.value, bestResult));
      } else {
        best := None;
      }
    } else {
      best := None;
    }
  }

  /** `getQualityDescription`: the text shown for a result's rating. */
  function QualityText(q: DnsQuality): string {
    match q
    case Excellent => "Excellent - Perfect for gaming"
    case Good => "Good - Great for gaming"
    case Fair => "Fair - Acceptable"
    case Poor => "Poor - Not recommended"
    case VeryPoor => "Very Poor - Very slow"
    case Failed => "Failed - Unreachable"
  }

  function QualityDescription(r: DnsTestResult): (text: string)
    ensures text == "Failed - Unreachable" <==> !r.isSuccess
    ensures text == "Excellent - Perfect for gaming" <==> r.isSuccess && r.avgPing < 20
  {
    QualityText(QualityRating(r))
  }

  /** Two results read the same description exactly when they earn the same rating. */
  lemma DescriptionNamesRating(a: DnsTestResult, b: DnsTestResult)
    ensures QualityDescription(a) == QualityDescription(b) <==> QualityRating(a) == QualityRating(b)
  {
    var qa, qb := QualityRating(a), QualityRating(b);
    if qa != qb {
      assert QualityText(qa)[0] != QualityText(qb)[0] || QualityText(qa)[3] != QualityText(qb)[3];
    }
  }
}
