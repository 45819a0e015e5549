/**
 * The home screen's controller: the server list and its test results, the
 * selected server, the connection state, and the flags shown while tests run.
 *
 * Each coroutine the controller launches is modelled as running to its end
 * without interleaving. What the outside world decides is an input: how the
 * connection helper's call ends (`CallOutcome`), how each speed test ends
 * (`TestCall`), the clock and the simulated ping. The intents the connection
 * helper hands to the VPN service are recorded in `sent`.
 */
module HomeViewModels {
  import opened Wrappers
  import opened Lists
  import opened DnsTestResults
  import opened DnsServers
  import opened DnsTestService
  import opened ConnectionStatsModel
  import GameDnsVpn

  datatype HomeUiState = HomeUiState(
    dnsServers: seq<DnsServer>,
    selectedDns: Option<DnsServer>,
    connectionState: ConnectionState,
    testingDnsId: Option<int>,
    isFindingBest: bool)

  /** `HomeUiState()` with every parameter left at its default. */
  const EmptyHome: HomeUiState := HomeUiState([], None, Disconnected, None, false)

  /** How a call into the connection helper ends: it returns, or it throws, with or without a message. */
  datatype CallOutcome = Returned | Threw(message: Option<string>)

  /** How a speed test ends: with the observations of its run, or by throwing. */
  datatype TestCall = Finished(run: ProbeRun) | Aborted

  const ConnectionFailed: string := "Connection failed"

  /** The intent `connect` of the connection helper starts the VPN service with. */
  function ConnectIntent(server: DnsServer): GameDnsVpn.Intent {
    GameDnsVpn.Intent(Some(GameDnsVpn.ActionConnect), Some(server))
  }

  /** The intent `disconnect` of the connection helper starts the VPN service with. */
  const DisconnectIntent: GameDnsVpn.Intent := GameDnsVpn.Intent(Some(GameDnsVpn.ActionDisconnect), None)

  /** The state after a successful connect: fresh statistics for the server, started at `now`. */
  function ConnectedTo(server: DnsServer, now: int): (c: ConnectionState)
    ensures c.Connected? && c.stats.connectedDns == Some(server) && c.stats.isConnected
    ensures c.stats.connectionStartTime == now && c.stats.connectionDuration == 0
    ensures c.stats.currentPing == 0 && c.stats.dataUsed == 0
  {
    Connected(DefaultStats.(connectedDns := Some(server), connectionStartTime := now, isConnected := true))
  }

  /** The first step of `connect`, before it suspends. */
  function BeganConnect(st: HomeUiState): HomeUiState {
    st.(connectionState := Connecting)
  }

  /** The end of `connect`: `Connected` when the helper returned, otherwise `Error` with the exception's message. */
  function ConnectFinished(st: HomeUiState, server: DnsServer, outcome: CallOutcome, now: int): (r: HomeUiState)
    ensures r.(connectionState := st.connectionState) == st
    ensures outcome.Returned? ==> r.connectionState == ConnectedTo(server, now)
    ensures outcome.Threw? && outcome.message.Some? ==> r.connectionState == Error(outcome.message.value)
    ensures outcome.Threw? && outcome.message.None? ==> r.connectionState == Error(ConnectionFailed)
  {
    match outcome
    case Returned => st.(connectionState := ConnectedTo(server, now))
    case Threw(message) => st.(connectionState := Error(message.GetOr(ConnectionFailed)))
  }

  /** `connect`, from launch to end. */
  function AfterConnect(st: HomeUiState, server: DnsServer, outcome: CallOutcome, now: int): HomeUiState {
    ConnectFinished(BeganConnect(st), server, outcome, now)
  }

  /** What `connect` sends: the connect intent, unless the call threw before the service was started. */
  function ConnectSends(server: DnsServer, outcome: CallOutcome): seq<GameDnsVpn.Intent> {
    if outcome.Returned? then [ConnectIntent(server)] else []
  }

  /** `disconnect`. */
  function AfterDisconnect(st: HomeUiState): HomeUiState {
    st.(connectionState := Disconnected)
  }

  /** `onConnectClick`: toggles the connection, connecting to the selected server if there is one. */
  function AfterClick(st: HomeUiState, outcome: CallOutcome, now: int): HomeUiState {
    if st.connectionState.Connected? then AfterDisconnect(st)
    else match st.selectedDns
      case None => st
      case Some(server) => AfterConnect(st, server, outcome, now)
  }

  function ClickSends(st: HomeUiState, outcome: CallOutcome): seq<GameDnsVpn.Intent> {
    if st.connectionState.Connected? then [DisconnectIntent]
    else match st.selectedDns
      case None => []
      case Some(server) => ConnectSends(server, outcome)
  }

  /**
   * The button toggles: when connected it disconnects; otherwise it connects
   * to the selected server, ending connected or in error as the call ended,
   * and with nothing selected it does nothing. Only the connection state changes.
   */
  lemma ClickToggles(st: HomeUiState, outcome: CallOutcome, now: int)
    ensures AfterClick(st, outcome, now).(connectionState := st.connectionState) == st
    ensures st.connectionState.Connected? ==>
              AfterClick(st, outcome, now).connectionState == Disconnected && ClickSends(st, outcome) == [DisconnectIntent]
    ensures !st.connectionState.Connected? && st.selectedDns.None? ==>
              AfterClick(st, outcome, now) == st && ClickSends(st, outcome) == []
    ensures !st.connectionState.Connected? && st.selectedDns.Some? && outcome.Returned? ==>
              AfterClick(st, outcome, now).connectionState == ConnectedTo(st.selectedDns.value, now) &&
              ClickSends(st, outcome) == [ConnectIntent(st.selectedDns.value)]
    ensures !st.connectionState.Connected? && st.selectedDns.Some? && outcome.Threw? ==>
              AfterClick(st, outcome, now).connectionState == Error(outcome.message.GetOr(ConnectionFailed)) &&
              ClickSends(st, outcome) == []
  {
  }

  /** Clicking while connected and then again connects to the selected server anew. */
  lemma ClickTwiceReconnects(st: HomeUiState, now: int)
    requires st.connectionState.Connected? && st.selectedDns.Some?
    ensures var once := AfterClick(st, Returned, now);
      && once.connectionState == Disconnected
      && AfterClick(once, Returned, now + 1).connectionState == ConnectedTo(st.selectedDns.value, now + 1)
      && ClickSends(st, Returned) + ClickSends(once, Returned) == [DisconnectIntent, ConnectIntent(st.selectedDns.value)]
  {
  }

  /**
   * The intents the controller sends do what they say at the service: the
   * connect intent, given an interface, leaves the service running on that
   * server, and the disconnect intent disconnects it.
   */
  lemma IntentsDriveService(vpn: GameDnsVpn.ServiceState, server: DnsServer, h: GameDnsVpn.Handle)
    ensures var r := GameDnsVpn.AfterStartCommand(vpn, Some(ConnectIntent(server)), GameDnsVpn.Established(h));
      r.isRunning && r.currentDnsServer == Some(server) && r.vpnInterface == Some(h)
    ensures GameDnsVpn.AfterStartCommand(vpn, Some(DisconnectIntent), GameDnsVpn.Refused) == GameDnsVpn.AfterDisconnect(vpn)
  {
  }

  /**
   * The screen reports `Connected` as soon as the service was started, also
   * when the service then gets no interface and stops without connecting.
   */
  lemma ConnectedWhileServiceRefused(st: HomeUiState, vpn: GameDnsVpn.ServiceState, server: DnsServer, now: int)
    ensures AfterConnect(st, server, Returned, now).connectionState == ConnectedTo(server, now)
    ensures ConnectSends(server, Returned) == [ConnectIntent(server)]
    ensures !GameDnsVpn.AfterStartCommand(vpn, Some(ConnectIntent(server)), GameDnsVpn.Refused).isRunning
  {
  }

  /**
   * The list with `result` recorded on every server carrying `id`: only
   * `lastTestResult` changes, and only where the id matches.
   */
  function WithResult(servers: seq<DnsServer>, id: int, result: DnsTestResult): (r: seq<DnsServer>)
    ensures |r| == |servers|
    ensures forall i :: 0 <= i < |r| ==> r[i].(lastTestResult := servers[i].lastTestResult) == servers[i]
    ensures forall i :: 0 <= i < |r| ==>
              r[i].lastTestResult == if servers[i].id == id then Some(result) else servers[i].lastTestResult
  {
    seq(|servers|, i requires 0 <= i < |servers| =>
      if servers[i].id == id then servers[i].(lastTestResult := Some(result)) else servers[i])
  }

  /** Recording results of two different servers gives the same list in either order. */
  lemma WithResultCommutes(servers: seq<DnsServer>, a: int, ra: DnsTestResult, b: int, rb: DnsTestResult)
    requires a != b
    ensures WithResult(WithResult(servers, a, ra), b, rb) == WithResult(WithResult(servers, b, rb), a, ra)
  {
    var x, y := WithResult(WithResult(servers, a, ra), b, rb), WithResult(WithResult(servers, b, rb), a, ra);
    forall i | 0 <= i < |servers|
      ensures x[i] == y[i]
    {
      assert x[i].(lastTestResult := servers[i].lastTestResult) == servers[i];
      assert y[i].(lastTestResult := servers[i].lastTestResult) == servers[i];
    }
  }

  /** Recording a later result of the same server replaces the earlier one. */
  lemma WithResultOverwrites(servers: seq<DnsServer>, id: int, r1: DnsTestResult, r2: DnsTestResult)
    ensures WithResult(WithResult(servers, id, r1), id, r2) == WithResult(servers, id, r2)
  {
    var x, y := WithResult(WithResult(servers, id, r1), id, r2), WithResult(servers, id, r2);
    forall i | 0 <= i < |servers|
      ensures x[i] == y[i]
    {
      assert x[i].(lastTestResult := servers[i].lastTestResult) == servers[i];
      assert y[i].(lastTestResult := servers[i].lastTestResult) == servers[i];
    }
  }

  /** `testDnsSpeed` on the default configuration, ending with `testingDnsId` cleared on both paths. */
  function AfterTest(st: HomeUiState, server: DnsServer, call: TestCall): (r: HomeUiState)
    requires call.Finished? ==> Fits(DefaultConfig(), call.run)
    ensures r.testingDnsId.None?
    ensures r.selectedDns == st.selectedDns && r.connectionState == st.connectionState
    ensures r.isFindingBest == st.isFindingBest
    ensures call.Aborted? ==> r.dnsServers == st.dnsServers
    ensures call.Finished? ==>
              r.dnsServers == WithResult(st.dnsServers, server.id, SpeedTestResult(server, DefaultConfig(), call.run))
  {
    match call
    case Aborted => st.(testingDnsId := None)
    case Finished(run) =>
      st.(dnsServers := WithResult(st.dnsServers, server.id, SpeedTestResult(server, DefaultConfig(), run)),
          testingDnsId := None)
  }

  /**
   * After a finished test every listed server with the tested id shows the
   * new result, which belongs to that server and ran the default five
   * iterations; the length, the order and the other servers are unchanged.
   */
  lemma TestShowsResult(st: HomeUiState, server: DnsServer, run: ProbeRun)
    requires Fits(DefaultConfig(), run)
    ensures var r := AfterTest(st, server, Finished(run));
      && |r.dnsServers| == |st.dnsServers|
      && forall k :: 0 <= k < |st.dnsServers| ==>
           if st.dnsServers[k].id == server.id then
             && r.dnsServers[k].lastTestResult == Some(SpeedTestResult(server, DefaultConfig(), run))
             && r.dnsServers[k].lastTestResult.value.dnsServerId == server.id
             && r.dnsServers[k].lastTestResult.value.testCount == 5
           else r.dnsServers[k] == st.dnsServers[k]
  {
  }

  /** The number of tests that finish before the first one that throws. */
  function Completed(calls: seq<TestCall>): (n: nat)
    ensures n <= |calls|
    ensures forall j :: 0 <= j < n ==> calls[j].Finished?
    ensures n < |calls| ==> calls[n].Aborted?
  {
    if calls == [] || calls[0].Aborted? then 0
    else
      assert forall j :: 1 <= j < |calls| ==> calls[j] == calls[1..][j - 1];
      1 + Completed(calls[1..])
  }

  /** Every finished test has one sample per iteration of the default configuration. */
  predicate CallsFit(calls: seq<TestCall>) {
    forall j :: 0 <= j < |calls| && calls[j].Finished? ==> Fits(DefaultConfig(), calls[j].run)
  }

  /** The pairs `findBestDns` collects: each of the first `n` servers with its result. */
  function TestedPairs(servers: seq<DnsServer>, calls: seq<TestCall>, n: nat): (pairs: seq<(DnsServer, DnsTestResult)>)
    requires n <= Completed(calls) && |calls| == |servers| && CallsFit(calls)
    ensures |pairs| == n
  {
    seq(n, j requires 0 <= j < n => (servers[j], SpeedTestResult(servers[j], DefaultConfig(), calls[j].run)))
  }

  /** The list after recording each pair's result on its server, pair by pair. */
  function ApplyResults(servers: seq<DnsServer>, pairs: seq<(DnsServer, DnsTestResult)>): (r: seq<DnsServer>)
    ensures |r| == |servers|
    decreases |pairs|
  {
    if pairs == [] then servers
    else
      var last := pairs[|pairs| - 1];
      WithResult(ApplyResults(servers, pairs[..|pairs| - 1]), last.0.id, last.1)
  }

  /** One more finished test adds its pair at the end. */
  lemma {:induction false} TestedPairsStep(servers: seq<DnsServer>, calls: seq<TestCall>, i: nat)
    requires i < Completed(calls) && |calls| == |servers| && CallsFit(calls)
    ensures TestedPairs(servers, calls, i + 1) ==
            TestedPairs(servers, calls, i) + [(servers[i], SpeedTestResult(servers[i], DefaultConfig(), calls[i].run))]
  {
  }

  /** Recording one more pair records its result on the list recorded so far. */
  lemma {:induction false} ApplyResultsStep(servers: seq<DnsServer>, pairs: seq<(DnsServer, DnsTestResult)>, p: (DnsServer, DnsTestResult))
    ensures ApplyResults(servers, pairs + [p]) == WithResult(ApplyResults(servers, pairs), p.0.id, p.1)
  {
    assert (pairs + [p])[..|pairs|] == pairs;
  }

  function PairSucceeded(p: (DnsServer, DnsTestResult)): bool {
    p.1.isSuccess
  }

  function PairAvgPing(p: (DnsServer, DnsTestResult)): int {
    p.1.avgPing
  }

  /** `filter { it.second.isSuccess }.minByOrNull { it.second.avgPing }`. */
  function BestPair(pairs: seq<(DnsServer, DnsTestResult)>): (r: Option<(DnsServer, DnsTestResult)>)
    ensures r.None? <==> forall j :: 0 <= j < |pairs| ==> !pairs[j].1.isSuccess
    ensures r.Some? ==> r.value in pairs && r.value.1.isSuccess
    ensures r.Some? ==> forall j :: 0 <= j < |pairs| && pairs[j].1.isSuccess ==> r.value.1.avgPing <= pairs[j].1.avgPing
  {
    var f := Filter(pairs, PairSucceeded);
    FilterMembers(pairs, PairSucceeded);
    MinByOrNull(f, PairAvgPing)
  }

  /**
   * `findBestDns` on the listed servers: every finished test is recorded in
   * the list; if all finished, the server of the best pair is selected;
   * the flags are cleared on both paths.
   */
  function AfterFindBest(st: HomeUiState, calls: seq<TestCall>): (r: HomeUiState)
    requires |calls| == |st.dnsServers| && CallsFit(calls)
    ensures r.connectionState == st.connectionState
    ensures r.testingDnsId.None? && !r.isFindingBest
    ensures |r.dnsServers| == |st.dnsServers|
    ensures Completed(calls) < |calls| ==> r.selectedDns == st.selectedDns
  {
    var servers, n := st.dnsServers, Completed(calls);
    var pairs := TestedPairs(servers, calls, n);
    var best := if n == |calls| then BestPair(pairs) else None;
    st.(dnsServers := ApplyResults(servers, pairs),
        selectedDns := if best.Some? then Some(best.value.0) else st.selectedDns,
        testingDnsId := None, isFindingBest := false)
  }

  /** The screen while `findBestDns` runs, once the first `i` servers are tested. */
  ghost function Searching(st: HomeUiState, calls: seq<TestCall>, i: nat): HomeUiState
    requires i <= Completed(calls) && |calls| == |st.dnsServers| && CallsFit(calls)
  {
    var servers := st.dnsServers;
    st.(isFindingBest := true, dnsServers := ApplyResults(servers, TestedPairs(servers, calls, i)),
        testingDnsId := if i == 0 then st.testingDnsId else Some(servers[i - 1].id))
  }

  /** Testing server `i` marks it as under test and records its result. */
  lemma {:induction false} SearchStep(st: HomeUiState, calls: seq<TestCall>, i: nat)
    requires i < Completed(calls) && |calls| == |st.dnsServers| && CallsFit(calls)
    ensures var cur, server := Searching(st, calls, i), st.dnsServers[i];
      Searching(st, calls, i + 1) ==
      cur.(testingDnsId := Some(server.id),
           dnsServers := WithResult(cur.dnsServers, server.id, SpeedTestResult(server, DefaultConfig(), calls[i].run)))
  {
    var servers := st.dnsServers;
    TestedPairsStep(servers, calls, i);
    ApplyResultsStep(servers, TestedPairs(servers, calls, i),
                     (servers[i], SpeedTestResult(servers[i], DefaultConfig(), calls[i].run)));
  }

  /** A search ends by clearing the progress fields, selecting the best server only when no test threw. */
  lemma {:induction false} SearchEnd(st: HomeUiState, calls: seq<TestCall>)
    requires |calls| == |st.dnsServers| && CallsFit(calls)
    ensures var n := Completed(calls);
      var best := if n == |calls| then BestPair(TestedPairs(st.dnsServers, calls, n)) else None;
      AfterFindBest(st, calls) ==
      Searching(st, calls, n).(selectedDns := if best.Some? then Some(best.value.0) else st.selectedDns,
                               testingDnsId := None, isFindingBest := false)
  {
  }

  /** The observations of the finished tests, as runs for `testMultipleDns`. */
  function Runs(calls: seq<TestCall>): (runs: seq<ProbeRun>)
    requires forall j :: 0 <= j < |calls| ==> calls[j].Finished?
    ensures |runs| == |calls|
  {
    seq(|calls|, j requires 0 <= j < |calls| => calls[j].run)
  }

  /** A first least pair is at the first least result, when the pairs carry the results. */
  lemma {:induction false} FirstMinOfPairs(pairs: seq<(DnsServer, DnsTestResult)>, results: seq<DnsTestResult>, i: int)
    requires |pairs| == |results| && forall j :: 0 <= j < |pairs| ==> pairs[j].1 == results[j]
    requires IsFirstMinWhere(pairs, PairSucceeded, PairAvgPing, i)
    ensures IsFirstMinWhere(results, Succeeded, AvgPingOf, i)
  {
    assert forall j :: 0 <= j < |pairs| ==> PairSucceeded(pairs[j]) == Succeeded(results[j]);
    assert forall j :: 0 <= j < |pairs| ==> PairAvgPing(pairs[j]) == AvgPingOf(results[j]);
  }

  /**
   * Of pairs carrying the given results, the best pair is absent exactly
   * when no result succeeded, and otherwise it is the pair at the first
   * successful result with the least average ping.
   */
  lemma {:induction false} BestPairAtFirstFastest(pairs: seq<(DnsServer, DnsTestResult)>, results: seq<DnsTestResult>)
    requires |pairs| == |results| && forall j :: 0 <= j < |pairs| ==> pairs[j].1 == results[j]
    requires exists i :: 0 <= i < |results| && results[i].isSuccess
    ensures Filter(results, Succeeded) != []
    ensures BestPair(pairs) == Some(pairs[FirstMinWhere(results, Succeeded, AvgPingOf)])
  {
    var i0 :| 0 <= i0 < |results| && results[i0].isSuccess;
    assert PairSucceeded(pairs[i0]);
    BestResultIsFirstMinimum(results);
    MinByOfFilter(pairs, PairSucceeded, PairAvgPing);
    var k := FirstMinWhere(pairs, PairSucceeded, PairAvgPing);
    FirstMinOfPairs(pairs, results, k);
    FirstMinWhereUnique(results, Succeeded, AvgPingOf, k, FirstMinWhere(results, Succeeded, AvgPingOf));
  }

  /** When every test finished, the collected pairs are the servers with the results of testing them all. */
  lemma {:induction false} PairsOfFinishedTests(servers: seq<DnsServer>, calls: seq<TestCall>)
    requires |calls| == |servers| && CallsFit(calls) && Completed(calls) == |calls|
    ensures RunsFit(servers, DefaultConfig(), Runs(calls))
    ensures var pairs, results := TestedPairs(servers, calls, |calls|), MultipleResults(servers, DefaultConfig(), Runs(calls));
      |pairs| == |results| && forall j :: 0 <= j < |pairs| ==> pairs[j] == (servers[j], results[j])
  {
    assert RunsFit(servers, DefaultConfig(), Runs(calls));
  }

  /** When every test finished, `findBestDns` selects the server of the best pair, if there is one. */
  lemma {:induction false} SelectsBestPair(st: HomeUiState, calls: seq<TestCall>)
    requires |calls| == |st.dnsServers| && CallsFit(calls) && Completed(calls) == |calls|
    ensures var best := BestPair(TestedPairs(st.dnsServers, calls, |calls|));
      AfterFindBest(st, calls).selectedDns == if best.Some? then Some(best.value.0) else st.selectedDns
  {
  }

  /** Of pairs of servers and results, the best pair is the first fastest successful result with its server. */
  lemma {:induction false} BestPairOfServers(pairs: seq<(DnsServer, DnsTestResult)>, servers: seq<DnsServer>, results: seq<DnsTestResult>)
    requires |pairs| == |results| == |servers|
    requires forall j :: 0 <= j < |pairs| ==> pairs[j] == (servers[j], results[j])
    ensures (forall i :: 0 <= i < |results| ==> !results[i].isSuccess) ==> BestPair(pairs).None?
    ensures (exists i :: 0 <= i < |results| && results[i].isSuccess) ==>
              Filter(results, Succeeded) != [] &&
              BestPair(pairs) == Some((servers[FirstMinWhere(results, Succeeded, AvgPingOf)], results[FirstMinWhere(results, Succeeded, AvgPingOf)]))
  {
    if exists i :: 0 <= i < |results| && results[i].isSuccess {
      BestPairAtFirstFastest(pairs, results);
    }
  }

  /** The selection `findBestDns` makes when every test finished, for pairs carrying `results`. */
  lemma {:induction false} SelectionOfCarriedResults(st: HomeUiState, calls: seq<TestCall>, results: seq<DnsTestResult>)
    requires |calls| == |st.dnsServers| && CallsFit(calls) && Completed(calls) == |calls|
    requires |results| == |calls|
    requires forall j :: 0 <= j < |calls| ==> TestedPairs(st.dnsServers, calls, |calls|)[j] == (st.dnsServers[j], results[j])
    ensures (forall i :: 0 <= i < |results| ==> !results[i].isSuccess) ==>
              AfterFindBest(st, calls).selectedDns == st.selectedDns
    ensures (exists i :: 0 <= i < |results| && results[i].isSuccess) ==>
              Filter(results, Succeeded) != [] &&
              AfterFindBest(st, calls).selectedDns == Some(st.dnsServers[FirstMinWhere(results, Succeeded, AvgPingOf)])
  {
    SelectsBestPair(st, calls);
    BestPairOfServers(TestedPairs(st.dnsServers, calls, |calls|), st.dnsServers, results);
  }

  /**
   * When every test finished, `findBestDns` selects the first server whose
   * successful result has the least average ping, and leaves the selection
   * alone when none succeeded. With distinct ids this is the server the
   * test service's own `findBestDns` returns on the same observations.
   */
  lemma {:induction false} FindBestSelectsFirstFastest(st: HomeUiState, calls: seq<TestCall>)
    requires |calls| == |st.dnsServers| && CallsFit(calls)
    requires Completed(calls) == |calls|
    ensures RunsFit(st.dnsServers, DefaultConfig(), Runs(calls))
    ensures var results := MultipleResults(st.dnsServers, DefaultConfig(), Runs(calls));
      && ((forall i :: 0 <= i < |results| ==> !results[i].isSuccess) ==>
            AfterFindBest(st, calls).selectedDns == st.selectedDns)
      && ((exists i :: 0 <= i < |results| && results[i].isSuccess) ==>
            Filter(results, Succeeded) != [] &&
            AfterFindBest(st, calls).selectedDns == Some(st.dnsServers[FirstMinWhere(results, Succeeded, AvgPingOf)]))
      && (DistinctIds(st.dnsServers) && BestOf(st.dnsServers, results).Some? ==>
            AfterFindBest(st, calls).selectedDns == Some(BestOf(st.dnsServers, results).value.0))
  {
    PairsOfFinishedTests(st.dnsServers, calls);
    var results := MultipleResults(st.dnsServers, DefaultConfig(), Runs(calls));
    SelectionOfCarriedResults(st, calls, results);
    BestOfMatchingResults(st.dnsServers, results);
  }

  /**
   * With distinct ids, a finished test's result is shown on its own server,
   * and the servers not reached keep what they showed.
   */
  lemma {:induction false} ApplyResultsDistinct(servers: seq<DnsServer>, pairs: seq<(DnsServer, DnsTestResult)>)
    requires DistinctIds(servers) && |pairs| <= |servers|
    requires forall j :: 0 <= j < |pairs| ==> pairs[j].0.id == servers[j].id
    ensures forall k :: 0 <= k < |pairs| ==> ApplyResults(servers, pairs)[k] == servers[k].(lastTestResult := Some(pairs[k].1))
    ensures forall k :: |pairs| <= k < |servers| ==> ApplyResults(servers, pairs)[k] == servers[k]
  {
    if pairs != [] {
      var init := pairs[..|pairs| - 1];
      ApplyResultsDistinct(servers, init);
      var prev := ApplyResults(servers, init);
      var last := pairs[|pairs| - 1];
      forall k | 0 <= k < |servers|
        ensures prev[k].id == servers[k].id
      {
        if k < |init| {
          assert prev[k] == servers[k].(lastTestResult := Some(init[k].1));
        }
      }
    }
  }

  /** After a `findBestDns` where every test finished, each server shows its own result. */
  lemma {:induction false} FindBestRecordsResults(st: HomeUiState, calls: seq<TestCall>)
    requires |calls| == |st.dnsServers| && CallsFit(calls) && DistinctIds(st.dnsServers)
    ensures forall k :: 0 <= k < Completed(calls) ==>
      AfterFindBest(st, calls).dnsServers[k] ==
        st.dnsServers[k].(lastTestResult := Some(SpeedTestResult(st.dnsServers[k], DefaultConfig(), calls[k].run)))
    ensures forall k :: Completed(calls) <= k < |calls| ==> AfterFindBest(st, calls).dnsServers[k] == st.dnsServers[k]
  {
    ApplyResultsDistinct(st.dnsServers, TestedPairs(st.dnsServers, calls, Completed(calls)));
  }

  /** The monitor's tick: while connected it refreshes duration and ping, keeping the server and the start time. */
  function AfterTick(st: HomeUiState, now: int, ping: int): (r: HomeUiState)
    requires 10 <= ping <= 50
    ensures !st.connectionState.Connected? ==> r == st
    ensures st.connectionState.Connected? ==>
      var before := st.connectionState.stats;
      && r.connectionState.Connected?
      && r.connectionState.stats.(connectionDuration := before.connectionDuration, currentPing := before.currentPing) == before
      && r.connectionState.stats.connectionDuration == now - before.connectionStartTime
      && 10 <= r.connectionState.stats.currentPing <= 50
    ensures r.(connectionState := st.connectionState) == st
  {
    match st.connectionState
    case Connected(stats) =>
      st.(connectionState := Connected(stats.(connectionDuration := now - stats.connectionStartTime, currentPing := ping)))
    case _ => st
  }

  /** A tick during a connect in progress changes nothing, so `connect` still ends as it would have. */
  lemma TickDuringConnect(st: HomeUiState, server: DnsServer, outcome: CallOutcome, now: int, tick: int, ping: int)
    requires 10 <= ping <= 50
    ensures AfterTick(BeganConnect(st), tick, ping) == BeganConnect(st)
    ensures ConnectFinished(AfterTick(BeganConnect(st), tick, ping), server, outcome, now) == AfterConnect(st, server, outcome, now)
  {
  }

  /** After a connect and any later ticks, the duration shown is the last tick's time since the connect. */
  lemma TicksMeasureFromConnect(st: HomeUiState, server: DnsServer, now: int, t1: int, p1: int, t2: int, p2: int)
    requires 10 <= p1 <= 50 && 10 <= p2 <= 50
    ensures var r := AfterTick(AfterTick(AfterConnect(st, server, Returned, now), t1, p1), t2, p2);
      && r.connectionState.Connected?
      && r.connectionState.stats.connectedDns == Some(server)
      && r.connectionState.stats.connectionDuration == t2 - now
      && r.connectionState.stats.currentPing == p2
  {
  }

  class HomeViewModel {
    var uiState: HomeUiState
    /** The intents handed to the VPN service, oldest first. */
    var sent: seq<GameDnsVpn.Intent>

    /** Loads the catalog; the monitor it starts acts through `MonitorTick`. */
    constructor()
      ensures uiState == HomeUiState(AllServers, None, Disconnected, None, false) && sent == []
    {
      uiState, sent := EmptyHome, [];
      new;
      LoadDnsServers();
    }

    /** `loadDnsServers`. */
    method LoadDnsServers()
      modifies this
      ensures uiState == old(uiState).(dnsServers := AllServers) && sent == old(sent)
    {
      uiState := uiState.(dnsServers := AllServers);
    }

    /** `onConnectClick`. */
    method OnConnectClick(outcome: CallOutcome, now: int)
      modifies this
      ensures uiState == AfterClick(old(uiState), outcome, now)
      ensures sent == old(sent) + ClickSends(old(uiState), outcome)
    {
      if uiState.connectionState.Connected? {
        Disconnect();
      } else if uiState.selectedDns.Some? {
        Connect(uiState.selectedDns.value, outcome, now);
      }
    }

    /** `selectDns`. */
    method SelectDns(dnsServer: DnsServer)
      modifies this
      ensures uiState == old(uiState).(selectedDns := Some(dnsServer)) && sent == old(sent)
    {
      uiState := uiState.(selectedDns := Some(dnsServer));
    }

    /** `connect`: `Connecting`, then the helper's call, then `Connected` or `Error`. */
    method Connect(dnsServer: DnsServer, outcome: CallOutcome, now: int)
      modifies this
      ensures uiState == AfterConnect(old(uiState), dnsServer, outcome, now)
      ensures sent == old(sent) + ConnectSends(dnsServer, outcome)
    {
      uiState := uiState.(connectionState := Connecting);
      match outcome {
        case Returned =>
          sent := sent + [ConnectIntent(dnsServer)];
          uiState := uiState.(connectionState := ConnectedTo(dnsServer, now));
        case Threw(message) =>
          uiState := uiState.(connectionState := Error(message.GetOr(ConnectionFailed)));
      }
    }

    /** `disconnect`. */
    method Disconnect()
      modifies this
      ensures uiState == AfterDisconnect(old(uiState)) && sent == old(sent) + [DisconnectIntent]
    {
      sent := sent + [DisconnectIntent];
      uiState := uiState.(connectionState := Disconnected);
    }

    /** `testDnsSpeed`, with the default test configuration. */
    method TestDnsSpeed(dnsServer: DnsServer, call: TestCall)
      requires call.Finished? ==> Fits(DefaultConfig(), call.run)
      modifies this
      ensures uiState == AfterTest(old(uiState), dnsServer, call) && sent == old(sent)
    {
      uiState := uiState.(testingDnsId := Some(dnsServer.id));
      match call {
        case Finished(run) =>
          var result, _ := DnsTestService.TestDnsSpeed(dnsServer, DefaultConfig(), run);
          var updatedServers := WithResult(uiState.dnsServers, dnsServer.id, result);
          uiState := uiState.(dnsServers := updatedServers, testingDnsId := None);
        case Aborted =>
          uiState := uiState.(testingDnsId := None);
      }
    }

    /** `findBestDns`: tests the listed servers one by one, then selects the best. */
    method FindBestDns(calls: seq<TestCall>)
      requires |calls| == |uiState.dnsServers| && CallsFit(calls)
      modifies this
      ensures uiState == AfterFindBest(old(uiState), calls) && sent == old(sent)
    {
      uiState := uiState.(isFindingBest := true);
      var servers := uiState.dnsServers;
      var results: seq<(DnsServer, DnsTestResult)> := [];
      var i := 0;
      while i < |servers| && calls[i].Finished?
        invariant 0 <= i <= Completed(calls) && servers == old(uiState).dnsServers
        invariant results == TestedPairs(servers, calls, i)
        invariant uiState == Searching(old(uiState), calls, i)
        invariant sent == old(sent)
      {
        SearchStep(old(uiState), calls, i);
        TestedPairsStep(servers, calls, i);
        uiState := uiState.(testingDnsId := Some(servers[i].id));
        var result, _ := DnsTestService.TestDnsSpeed(servers[i], DefaultConfig(), calls[i].run);
        var updatedServers := WithResult(uiState.dnsServers, servers[i].id, result);
        results := results + [(servers[i], result)];
        uiState := uiState.(dnsServers := updatedServers);
        i := i + 1;
      }
      SearchEnd(old(uiState), calls);
      if i < |servers| {
        // the test of `servers[i]` threw: the catch block
        uiState := uiState.(testingDnsId := Some(servers[i].id));
        uiState := uiState.(testingDnsId := None, isFindingBest := false);
      } else {
        var bestResult := MinByOrNull(Filter(results, PairSucceeded), PairAvgPing);
        if bestResult.Some? {
          uiState := uiState.(selectedDns := Some(bestResult.value.0));
        }
        uiState := uiState.(testingDnsId := None, isFindingBest := false);
      }
    }

    /** One pass of the monitoring loop, at time `now` with the simulated ping `ping`. */
    method MonitorTick(now: int, ping: int)
      requires 10 <= ping <= 50
      modifies this
      ensures uiState == AfterTick(old(uiState), now, ping) && sent == old(sent)
    {
      if uiState.connectionState.Connected? {
        var stats := uiState.connectionState.stats;
        var duration := now - stats.connectionStartTime;
        uiState := uiState.(connectionState := Connected(stats.(connectionDuration := duration, currentPing := ping)));
      }
    }
  }
}
