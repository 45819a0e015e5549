/**
 * The VPN service that routes the device's DNS traffic through a chosen
 * server: the builder configuration it requests, and its session life cycle
 * over `isRunning`, `currentDnsServer`, the interface handle and the packet
 * thread.
 *
 * The Android side is not modelled: what `establish()` does is an input
 * (`EstablishOutcome`), interface handles and threads are numbers, and the
 * calls that close, interrupt, notify or stop are recorded in logs.
 */
module GameDnsVpn {
  import opened Wrappers
  import opened DnsServers

  const VpnAddress: string := "10.0.0.2"
  const VpnAddressPrefix: int := 24
  const VpnRoute: string := "0.0.0.0"
  const VpnRoutePrefix: int := 0
  const VpnMtu: int := 1500
  const ActionConnect: string := "com.gamedns.action.CONNECT"
  const ActionDisconnect: string := "com.gamedns.action.DISCONNECT"
  /** Android's `Service.START_STICKY`. */
  const StartSticky: int := 1

  /** An interface file descriptor handed out by `establish()`. */
  type Handle = nat

  /** What the builder is asked for before `establish()`. */
  datatype BuilderConfig = BuilderConfig(
    session: string,
    addresses: seq<(string, int)>,
    dnsServers: seq<string>,
    routes: seq<(string, int)>,
    mtu: int,
    blocking: bool)

  /** The interface requested for a server. */
  function ConfigFor(server: DnsServer): (c: BuilderConfig)
    ensures c.addresses == [(VpnAddress, VpnAddressPrefix)] && c.routes == [(VpnRoute, VpnRoutePrefix)]
    ensures c.dnsServers == [server.primaryDns, server.secondaryDns]
    ensures c.mtu == VpnMtu && !c.blocking
    ensures c.session == "GameDNS - " + server.name
  {
    BuilderConfig("GameDNS - " + server.name, [(VpnAddress, VpnAddressPrefix)],
                  [server.primaryDns, server.secondaryDns], [(VpnRoute, VpnRoutePrefix)], VpnMtu, false)
  }

  /**
   * How the attempt to bring the interface up ends: an interface, null, an
   * exception from `establish()` itself, an interface followed by an
   * exception from entering the foreground, or an interface followed by an
   * exception once the packet thread is started (from `startVpnThread` after
   * it kept the thread, or from `startMonitoring`).
   */
  datatype EstablishOutcome =
    | Established(h: Handle)
    | Refused
    | Threw
    | EstablishedThenThrew(h: Handle)
    | StartedThenThrew(h: Handle)

  /** An intent as the service sees it: its action and its server extra. */
  datatype Intent = Intent(action: Option<string>, extra: Option<DnsServer>)

  /** The service's fields and the logs of what it asked Android to do. */
  datatype ServiceState = ServiceState(
    isRunning: bool,
    currentDnsServer: Option<DnsServer>,
    vpnInterface: Option<Handle>,
    vpnThread: Option<nat>,
    threadsStarted: nat,
    handedOut: seq<Handle>,
    closed: seq<Handle>,
    interrupted: seq<nat>,
    requests: seq<BuilderConfig>,
    notification: Option<string>,
    stopRequests: nat,
    scopeCancelled: bool)

  /** A freshly created service. */
  const Initial: ServiceState := ServiceState(false, None, None, None, 0, [], [], [], [], None, 0, false)

  /** The fields that describe the session, without the logs. */
  datatype Session = Session(
    isRunning: bool, currentDnsServer: Option<DnsServer>, vpnInterface: Option<Handle>,
    vpnThread: Option<nat>, notification: Option<string>)

  function SessionOf(st: ServiceState): Session {
    Session(st.isRunning, st.currentDnsServer, st.vpnInterface, st.vpnThread, st.notification)
  }

  /** The session is up exactly when a server and an interface are held; a thread and the notification only then. */
  ghost predicate Consistent(st: ServiceState) {
    && (st.isRunning <==> st.currentDnsServer.Some? && st.vpnInterface.Some?)
    && (st.vpnThread.Some? ==> st.isRunning)
    && (st.notification.Some? ==> st.isRunning)
  }

  /** Every interface ever handed out is closed, except the current one, which is open. */
  ghost predicate NoLeak(st: ServiceState) {
    && (forall i :: 0 <= i < |st.handedOut| ==> st.handedOut[i] in st.closed || st.vpnInterface == Some(st.handedOut[i]))
    && (st.vpnInterface.Some? ==> st.vpnInterface.value in st.handedOut && st.vpnInterface.value !in st.closed)
  }

  const NotificationPrefix: string := "Connected to "

  /** `disconnect`: interrupts and drops the thread, closes and drops the interface, clears the session. */
  function AfterDisconnect(st: ServiceState): (r: ServiceState)
    ensures !r.isRunning && r.currentDnsServer.None? && r.vpnInterface.None? && r.vpnThread.None?
    ensures r.notification.None? && Consistent(r)
    ensures r.closed == st.closed + ToSeq(st.vpnInterface) && r.interrupted == st.interrupted + ToSeq(st.vpnThread)
    ensures r.handedOut == st.handedOut && r.requests == st.requests && r.threadsStarted == st.threadsStarted
    ensures r.stopRequests == st.stopRequests + 1 && r.scopeCancelled == st.scopeCancelled
  {
    st.(vpnThread := None, interrupted := st.interrupted + ToSeq(st.vpnThread),
        vpnInterface := None, closed := st.closed + ToSeq(st.vpnInterface),
        isRunning := false, currentDnsServer := None,
        notification := None, stopRequests := st.stopRequests + 1)
  }

  /** `startVpnThread`: a new thread is created, started and kept. */
  function AfterStartThread(st: ServiceState): (r: ServiceState)
    ensures r.vpnThread == Some(st.threadsStarted) && r.threadsStarted == st.threadsStarted + 1
    ensures SessionOf(r) == SessionOf(st).(vpnThread := Some(st.threadsStarted))
    ensures r.handedOut == st.handedOut && r.closed == st.closed && r.interrupted == st.interrupted
    ensures r.requests == st.requests && r.stopRequests == st.stopRequests && r.scopeCancelled == st.scopeCancelled
  {
    st.(vpnThread := Some(st.threadsStarted), threadsStarted := st.threadsStarted + 1)
  }

  /** The steps of `connectToDns` up to the interface: disconnect, then request the configuration. */
  function BeforeEstablish(st: ServiceState, server: DnsServer): ServiceState {
    var d := AfterDisconnect(st);
    d.(requests := d.requests + [ConfigFor(server)])
  }

  /** The interface is kept and the session set to the server. */
  function Bound(st: ServiceState, server: DnsServer, h: Handle): ServiceState {
    st.(vpnInterface := Some(h), handedOut := st.handedOut + [h], currentDnsServer := Some(server), isRunning := true)
  }

  /** `connectToDns`, for each way `establish()` and the steps after it can end. */
  function AfterConnect(st: ServiceState, server: DnsServer, outcome: EstablishOutcome): (r: ServiceState)
    ensures Consistent(r)
    ensures r.requests == st.requests + [ConfigFor(server)]
    ensures r.isRunning <==> outcome.Established?
    ensures outcome.Established? ==>
              r.currentDnsServer == Some(server) && r.vpnInterface == Some(outcome.h) &&
              r.vpnThread == Some(st.threadsStarted) && r.notification == Some(NotificationPrefix + server.name)
    ensures !outcome.Established? ==> SessionOf(r) == SessionOf(AfterDisconnect(st))
    ensures outcome.StartedThenThrew? ==>
              r.interrupted == st.interrupted + ToSeq(st.vpnThread) + [st.threadsStarted] &&
              r.closed == st.closed + ToSeq(st.vpnInterface) + [outcome.h]
  {
    var before := BeforeEstablish(st, server);
    match outcome
    case Refused => before.(stopRequests := before.stopRequests + 1)
    case Threw => AfterDisconnect(before)
    case EstablishedThenThrew(h) => AfterDisconnect(Bound(before, server, h))
    case StartedThenThrew(h) =>
      AfterDisconnect(AfterStartThread(Bound(before, server, h).(notification := Some(NotificationPrefix + server.name))))
    case Established(h) =>
      AfterStartThread(Bound(before, server, h).(notification := Some(NotificationPrefix + server.name)))
  }

  /** `onStartCommand`: connect on CONNECT with a server, disconnect on DISCONNECT, otherwise nothing. */
  function AfterStartCommand(st: ServiceState, intent: Option<Intent>, outcome: EstablishOutcome): (r: ServiceState)
    ensures (intent.None? || intent.value.action.None? ||
             (intent.value.action.value != ActionConnect && intent.value.action.value != ActionDisconnect)) ==> r == st
    ensures intent.Some? && intent.value.action == Some(ActionConnect) && intent.value.extra.None? ==> r == st
    ensures intent.Some? && intent.value.action == Some(ActionConnect) && intent.value.extra.Some? ==>
              r == AfterConnect(st, intent.value.extra.value, outcome)
    ensures intent.Some? && intent.value.action == Some(ActionDisconnect) ==> r == AfterDisconnect(st)
  {
    if intent.None? || intent.value.action.None? then st
    else if intent.value.action.value == ActionConnect then
      match intent.value.extra
      case Some(server) => AfterConnect(st, server, outcome)
      case None => st
    else if intent.value.action.value == ActionDisconnect then AfterDisconnect(st)
    else st
  }

  /** `onDestroy`: disconnect, then cancel the coroutine scope. */
  function AfterDestroy(st: ServiceState): (r: ServiceState)
    ensures SessionOf(r) == SessionOf(AfterDisconnect(st)) && r.scopeCancelled
    ensures r.closed == st.closed + ToSeq(st.vpnInterface) && r.interrupted == st.interrupted + ToSeq(st.vpnThread)
    ensures r.handedOut == st.handedOut && r.requests == st.requests && r.stopRequests == st.stopRequests + 1
  {
    AfterDisconnect(st).(scopeCancelled := true)
  }

  /** Disconnecting twice leaves the session as disconnecting once; only the stop requests repeat. */
  lemma DisconnectIdempotent(st: ServiceState)
    ensures AfterDisconnect(AfterDisconnect(st)) == AfterDisconnect(st).(stopRequests := st.stopRequests + 2)
    ensures SessionOf(AfterDisconnect(AfterDisconnect(st))) == SessionOf(AfterDisconnect(st))
  {
  }

  /**
   * Connecting to `a` and then to `b` leaves one interface, bound to `b`: the
   * first interface was closed and its thread interrupted on the way.
   */
  lemma ConnectThenConnect(st: ServiceState, a: DnsServer, b: DnsServer, h1: Handle, h2: Handle)
    ensures var r := AfterConnect(AfterConnect(st, a, Established(h1)), b, Established(h2));
      && r.isRunning && r.currentDnsServer == Some(b) && r.vpnInterface == Some(h2)
      && h1 in r.closed && st.threadsStarted in r.interrupted
      && r.requests == st.requests + [ConfigFor(a), ConfigFor(b)]
  {
    var m := AfterConnect(st, a, Established(h1));
    assert m.vpnInterface == Some(h1) && m.vpnThread == Some(st.threadsStarted);
    var r := AfterConnect(m, b, Established(h2));
    assert r.closed[|r.closed| - 1] == h1;
    assert r.interrupted[|r.interrupted| - 1] == st.threadsStarted;
  }

  /** A null interface leaves the service disconnected, whatever session was up before, and asks to stop. */
  lemma RefusedLeavesDisconnected(st: ServiceState, server: DnsServer)
    ensures var r := AfterConnect(st, server, Refused);
      && !r.isRunning && r.currentDnsServer.None? && r.vpnInterface.None? && r.vpnThread.None?
      && r.closed == st.closed + ToSeq(st.vpnInterface)
      && r.stopRequests == st.stopRequests + 2
  {
  }

  /** After a refused attempt, a later attempt that gets an interface is connected to its server. */
  lemma RetryAfterRefusal(st: ServiceState, server: DnsServer, other: DnsServer, h: Handle)
    ensures var r := AfterConnect(AfterConnect(st, server, Refused), other, Established(h));
      r.isRunning && r.currentDnsServer == Some(other) && r.vpnInterface == Some(h)
  {
  }

  /** Every entry point ends in a consistent state, from any state. */
  lemma {:induction false} EntryPointsConsistent(st: ServiceState, intent: Option<Intent>, outcome: EstablishOutcome)
    requires Consistent(st)
    ensures Consistent(AfterStartCommand(st, intent, outcome))
    ensures Consistent(AfterDisconnect(st)) && Consistent(AfterDestroy(st))
  {
  }

  /** Disconnecting closes every interface still open. */
  lemma {:induction false} DisconnectKeepsNoLeak(st: ServiceState)
    requires NoLeak(st)
    ensures NoLeak(AfterDisconnect(st))
  {
    var d := AfterDisconnect(st);
    forall i | 0 <= i < |d.handedOut|
      ensures d.handedOut[i] in d.closed
    {
      assert st.handedOut[i] in st.closed || st.vpnInterface == Some(st.handedOut[i]);
    }
  }

  /** Binding a fresh interface while none is held keeps every other interface closed. */
  lemma {:induction false} BoundKeepsNoLeak(st: ServiceState, server: DnsServer, h: Handle)
    requires NoLeak(st) && st.vpnInterface.None?
    requires h !in st.handedOut && h !in st.closed
    ensures NoLeak(Bound(st, server, h))
  {
    var b := Bound(st, server, h);
    forall i | 0 <= i < |b.handedOut|
      ensures b.handedOut[i] in b.closed || b.vpnInterface == Some(b.handedOut[i])
    {
      if i < |st.handedOut| {
        assert b.handedOut[i] == st.handedOut[i];
      }
    }
  }

  /** Destroying the service closes the interface it still holds, so nothing leaks. */
  lemma {:induction false} DestroyKeepsNoLeak(st: ServiceState)
    requires NoLeak(st)
    ensures NoLeak(AfterDestroy(st))
  {
    DisconnectKeepsNoLeak(st);
    assert AfterDestroy(st).handedOut == AfterDisconnect(st).handedOut;
    assert AfterDestroy(st).closed == AfterDisconnect(st).closed;
  }

  /** No entry point leaks an interface, given that `establish()` hands out fresh handles. */
  lemma {:induction false} ConnectKeepsNoLeak(st: ServiceState, server: DnsServer, outcome: EstablishOutcome)
    requires NoLeak(st)
    requires (outcome.Established? || outcome.EstablishedThenThrew? || outcome.StartedThenThrew?) ==>
               outcome.h !in st.handedOut && outcome.h !in st.closed
    ensures NoLeak(AfterDisconnect(st))
    ensures NoLeak(AfterConnect(st, server, outcome))
  {
    DisconnectKeepsNoLeak(st);
    var before := BeforeEstablish(st, server);
    assert NoLeak(before);
    match outcome
    case Refused =>
    case Threw =>
      DisconnectKeepsNoLeak(before);
    case Established(h) =>
      assert h !in before.closed;
      BoundKeepsNoLeak(before, server, h);
    case EstablishedThenThrew(h) =>
      assert h !in before.closed;
      BoundKeepsNoLeak(before, server, h);
      DisconnectKeepsNoLeak(Bound(before, server, h));
    case StartedThenThrew(h) =>
      assert h !in before.closed;
      BoundKeepsNoLeak(before, server, h);
      var started := AfterStartThread(Bound(before, server, h).(notification := Some(NotificationPrefix + server.name)));
      assert NoLeak(started);
      DisconnectKeepsNoLeak(started);
  }

  /** The service object: the companion's `isRunning` and `currentDnsServer`, the instance's handle and thread. */
  class GameDnsVpnService {
    var isRunning: bool
    var currentDnsServer: Option<DnsServer>
    var vpnInterface: Option<Handle>
    var vpnThread: Option<nat>
    var threadsStarted: nat
    var handedOut: seq<Handle>
    var closed: seq<Handle>
    var interrupted: seq<nat>
    var requests: seq<BuilderConfig>
    var notification: Option<string>
    var stopRequests: nat
    var scopeCancelled: bool

    function State(): ServiceState
      reads this
    {
      ServiceState(isRunning, currentDnsServer, vpnInterface, vpnThread, threadsStarted, handedOut, closed,
                   interrupted, requests, notification, stopRequests, scopeCancelled)
    }

    constructor()
      ensures State() == Initial
    {
      isRunning, currentDnsServer, vpnInterface, vpnThread := false, None, None, None;
      threadsStarted, handedOut, closed, interrupted := 0, [], [], [];
      requests, notification, stopRequests, scopeCancelled := [], None, 0, false;
    }

    /** `disconnect`. */
    method Disconnect()
      modifies this
      ensures State() == AfterDisconnect(old(State()))
    {
      if vpnThread.Some? {
        interrupted := interrupted + [vpnThread.value];
      }
      vpnThread := None;
      if vpnInterface.Some? {
        closed := closed + [vpnInterface.value];
      }
      vpnInterface := None;
      isRunning := false;
      currentDnsServer := None;
      notification := None;
      stopRequests := stopRequests + 1;
    }

    /** `startVpnThread`. */
    method StartVpnThread()
      modifies this
      ensures State() == AfterStartThread(old(State()))
    {
      vpnThread := Some(threadsStarted);
      threadsStarted := threadsStarted + 1;
    }

    /** `connectToDns`: disconnect, build, establish, and on an interface bind the session and start the thread. */
    method ConnectToDns(dnsServer: DnsServer, outcome: EstablishOutcome)
      modifies this
      ensures State() == AfterConnect(old(State()), dnsServer, outcome)
    {
      Disconnect();
      requests := requests + [ConfigFor(dnsServer)];
      ghost var before := BeforeEstablish(old(State()), dnsServer);
      assert State() == before;
      match outcome {
        case Threw =>
          Disconnect();
        case Refused =>
          vpnInterface := None;
          stopRequests := stopRequests + 1;
        case Established(h) =>
          vpnInterface := Some(h);
          handedOut := handedOut + [h];
          currentDnsServer := Some(dnsServer);
          isRunning := true;
          notification := Some(NotificationPrefix + dnsServer.name);
          assert State() == Bound(before, dnsServer, h).(notification := Some(NotificationPrefix + dnsServer.name));
          StartVpnThread();
        case EstablishedThenThrew(h) =>
          vpnInterface := Some(h);
          handedOut := handedOut + [h];
          currentDnsServer := Some(dnsServer);
          isRunning := true;
          assert State() == Bound(before, dnsServer, h);
          Disconnect();
        case StartedThenThrew(h) =>
          vpnInterface := Some(h);
          handedOut := handedOut + [h];
          currentDnsServer := Some(dnsServer);
          isRunning := true;
          notification := Some(NotificationPrefix + dnsServer.name);
          assert State() == Bound(before, dnsServer, h).(notification := Some(NotificationPrefix + dnsServer.name));
          StartVpnThread();
          Disconnect();
      }
    }

    /** `onStartCommand`: dispatches on the action and always asks to be restarted. */
    method OnStartCommand(intent: Option<Intent>, outcome: EstablishOutcome) returns (mode: int)
      modifies this
      ensures State() == AfterStartCommand(old(State()), intent, outcome)
      ensures mode == StartSticky
    {
      if intent.Some? && intent.value.action == Some(ActionConnect) {
        if intent.value.extra.Some? {
          ConnectToDns(intent.value.extra.value, outcome);
        }
      } else if intent.Some? && intent.value.action == Some(ActionDisconnect) {
        Disconnect();
      }
      mode := StartSticky;
    }

    /** `onRevoke`: the user withdrew the VPN permission. */
    method OnRevoke()
      modifies this
      ensures State() == AfterDisconnect(old(State()))
    {
      Disconnect();
    }

    /** `onDestroy`. */
    method OnDestroy()
      modifies this
      ensures State() == AfterDestroy(old(State()))
    {
      Disconnect();
      scopeCancelled := true;
    }
  }
}
