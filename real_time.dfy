/**
 * The real-time data service: a connection state machine over a polling
 * market-data source, with a subscription set, a refresh timer, a heartbeat,
 * network-state handling and an event bus.
 *
 * Every `await` of the source splits an operation into the synchronous part
 * (a method here) and its continuation (a second method, fired by whoever
 * drives the model once the awaited value is known).  Timers that fire once
 * are counters of pending callbacks; interval timers are a flag plus a ghost
 * count of live intervals, so that a leaked interval would show.  Emitted
 * events are recorded in a ghost log, each with the listeners it reached.
 */
module RealTime {
  import opened Base
  import opened Text
  import opened Sequences
  import MarketData

  const MaxReconnectAttempts: nat := 5
  const ReconnectDelay: nat := 1000
  const UpdateIntervalMs: nat := 30000
  const HeartbeatIntervalMs: nat := 60000
  /** Delay of the reconnect check scheduled after a failure. */
  const ReconnectCheckDelayMs: nat := 1000
  /** Delay of the connect scheduled when the network comes back. */
  const OnlineConnectDelayMs: nat := 1000

  const ConnectionTestFailed := "Connection test failed"
  const ConnectedMessage := "Successfully connected to market data service"
  const DisconnectedByUser := "Disconnected by user"
  const MaxAttemptsReached := "Max reconnection attempts reached"
  const UnknownPriceUpdateError := "Unknown price update error"
  const NotConnectedOrOffline := "Not connected or offline"

  datatype ConnState = Disconnected | Connecting | Connected | Reconnecting

  /** A listener callback, by identity. */
  type Callback = nat

  /** What awaiting `getMarketStatus()` produced: a status object, a falsy value, or a rejection. */
  datatype Probe = Answered(status: MarketData.MarketStatus) | Falsy | Failed(message: string)

  /** The payloads the service emits (timestamps are kept where the service also stores them). */
  datatype Event =
    | StateChanged(state: ConnState, attempt: Option<nat>, maxAttempts: Option<nat>,
                   message: Option<string>, failure: Option<string>)
    | NetworkStateChanged(isOnline: bool)
    | SymbolSubscribed(symbol: string, totalSubscriptions: nat)
    | SymbolUnsubscribed(symbol: string, totalSubscriptions: nat)
    | PriceUpdatesStarted(symbols: seq<string>, intervalMs: nat)
    | PriceUpdatesStopped
    | PriceUpdateStarted
    | PriceUpdate(symbol: string, quote: MarketData.Quote, timestamp: int)
    | PriceUpdateCompleted(quotes: seq<MarketData.Entry>, timestamp: int, symbolsUpdated: nat)
    | PriceUpdateError(error: string)
    | Heartbeat(timestamp: int, marketStatus: Option<MarketData.MarketStatus>)
    | HeartbeatFailed(error: string)
    | SyncStarted
    | SyncCompleted(quotes: seq<MarketData.Entry>, success: bool)
    | SyncError(error: string)
  {
    /** The event name listeners register under. */
    function Name(): string
    {
      match this
      case StateChanged(_, _, _, _, _) => "connectionStateChanged"
      case NetworkStateChanged(_) => "networkStateChanged"
      case SymbolSubscribed(_, _) => "symbolSubscribed"
      case SymbolUnsubscribed(_, _) => "symbolUnsubscribed"
      case PriceUpdatesStarted(_, _) => "priceUpdatesStarted"
      case PriceUpdatesStopped => "priceUpdatesStopped"
      case PriceUpdateStarted => "priceUpdateStarted"
      case PriceUpdate(_, _, _) => "priceUpdate"
      case PriceUpdateCompleted(_, _, _) => "priceUpdateCompleted"
      case PriceUpdateError(_) => "priceUpdateError"
      case Heartbeat(_, _) => "heartbeat"
      case HeartbeatFailed(_) => "heartbeatFailed"
      case SyncStarted => "syncStarted"
      case SyncCompleted(_, _) => "syncCompleted"
      case SyncError(_) => "syncError"
    }
  }

  const ConnectingEvent := StateChanged(Connecting, None, None, None, None)
  const ConnectedEvent := StateChanged(Connected, None, None, Some(ConnectedMessage), None)
  const UserDisconnectEvent := StateChanged(Disconnected, None, None, Some(DisconnectedByUser), None)
  const MaxAttemptsEvent := StateChanged(Disconnected, None, None, None, Some(MaxAttemptsReached))

  function FailedConnectEvent(error: string): Event
  {
    StateChanged(Disconnected, None, None, None, Some(error))
  }

  function ReconnectingEvent(attempt: nat): Event
  {
    StateChanged(Reconnecting, Some(attempt), Some(MaxReconnectAttempts), None, None)
  }

  /** The error message a failed connection test reports (`None` when the test passed). */
  function ProbeError(probe: Probe): (r: Option<string>)
    ensures r.None? <==> probe.Answered?
    ensures probe.Failed? ==> r == Some(probe.message)
    ensures probe.Falsy? ==> r == Some(ConnectionTestFailed)
  {
    match probe
    case Answered(_) => None
    case Falsy => Some(ConnectionTestFailed)
    case Failed(m) => Some(m)
  }

  function Pow2(n: nat): (p: nat)
    ensures p >= 1
  {
    if n == 0 then 1 else 2 * Pow2(n - 1)
  }

  /** `reconnectDelay * 2^(attempt - 1)`: the backoff before the given attempt. */
  function BackoffDelay(attempt: nat): nat
    requires attempt >= 1
  {
    ReconnectDelay * Pow2(attempt - 1)
  }

  /** Each backoff doubles the previous one, starting from one second. */
  lemma BackoffDoubles(attempt: nat)
    requires attempt >= 1
    ensures BackoffDelay(1) == ReconnectDelay
    ensures BackoffDelay(attempt + 1) == 2 * BackoffDelay(attempt)
  {
    assert Pow2(attempt) == 2 * Pow2(attempt - 1);
  }

  /** The backoffs of all attempts: 1, 2, 4, 8 and 16 seconds. */
  function BackoffSchedule(n: nat): (r: seq<nat>)
    ensures |r| == n
    ensures forall i :: 0 <= i < n ==> r[i] == BackoffDelay(i + 1)
  {
    if n == 0 then [] else BackoffSchedule(n - 1) + [BackoffDelay(n)]
  }

  /** A full run of reconnects waits 31 seconds in total before giving up. */
  lemma {:induction false} FullBackoff()
    ensures BackoffSchedule(MaxReconnectAttempts) == [1000, 2000, 4000, 8000, 16000]
    ensures BackoffDelay(MaxReconnectAttempts) == 16000
  {
    assert Pow2(1) == 2;
    assert Pow2(2) == 4;
    assert Pow2(3) == 8;
    assert Pow2(4) == 16;
  }

  /** The events `startPriceUpdates` emits, given whether the refresh interval was already set. */
  function StartEvents(wasArmed: bool, symbols: seq<string>, online: bool, st: ConnState): seq<Event>
  {
    if wasArmed || symbols == [] then []
    else [PriceUpdatesStarted(symbols, UpdateIntervalMs)] + CycleEvents(online, st)
  }

  /**
   * `startPriceUpdates` emits nothing when the interval is already set or there
   * is nothing to poll; otherwise `priceUpdatesStarted` with the symbols, then
   * `priceUpdateStarted` exactly when the first cycle gets past its guards.
   */
  lemma StartEventsSpec(wasArmed: bool, symbols: seq<string>, online: bool, st: ConnState)
    ensures var r := StartEvents(wasArmed, symbols, online, st);
      && (r == [] <==> wasArmed || symbols == [])
      && (r != [] ==> r[0] == PriceUpdatesStarted(symbols, UpdateIntervalMs))
      && (|r| == 2 <==> StartsCycle(wasArmed, symbols, online, st))
      && (|r| == 2 ==> r[1] == PriceUpdateStarted)
      && |r| <= 2
  {
  }

  /** Whether the initial `updatePrices()` run of `startPriceUpdates` gets past its guards. */
  predicate StartsCycle(wasArmed: bool, symbols: seq<string>, online: bool, st: ConnState)
  {
    !wasArmed && symbols != [] && online && st == Connected
  }

  function CycleEvents(online: bool, st: ConnState): seq<Event>
  {
    if online && st == Connected then [PriceUpdateStarted] else []
  }

  /** A quote result is broadcast individually when it succeeded and carries data. */
  predicate Broadcastable(e: MarketData.Entry)
  {
    e.quote.success && e.quote.data.Some?
  }

  /** The `priceUpdate` events for a batch, in entry order. */
  function PriceUpdates(entries: seq<MarketData.Entry>, at: int): (r: seq<Event>)
    ensures |r| <= |entries|
    ensures forall k :: 0 <= k < |r| ==> r[k].PriceUpdate? && r[k].timestamp == at
  {
    if entries == [] then []
    else
      var n := |entries| - 1;
      var prev := PriceUpdates(entries[..n], at);
      var e := entries[n];
      if Broadcastable(e) then prev + [PriceUpdate(e.symbol, e.quote.data.value, at)] else prev
  }

  /**
   * Exactly the results that succeeded with data are broadcast individually,
   * each with the batch timestamp.
   */
  lemma {:induction false} PriceUpdatesSpec(entries: seq<MarketData.Entry>, at: int)
    ensures var r := PriceUpdates(entries, at);
      forall k :: 0 <= k < |r| ==>
        r[k].PriceUpdate? && r[k].timestamp == at &&
        exists j :: 0 <= j < |entries| && Broadcastable(entries[j]) &&
          r[k].symbol == entries[j].symbol && Some(r[k].quote) == entries[j].quote.data
    ensures forall j :: 0 <= j < |entries| && Broadcastable(entries[j]) ==>
      PriceUpdate(entries[j].symbol, entries[j].quote.data.value, at) in PriceUpdates(entries, at)
    ensures (forall j :: 0 <= j < |entries| ==> Broadcastable(entries[j])) ==>
      |PriceUpdates(entries, at)| == |entries|
  {
    if entries != [] {
      var n := |entries| - 1;
      var init := entries[..n];
      var last := entries[n];
      PriceUpdatesSpec(init, at);
      var prev := PriceUpdates(init, at);
      var r := PriceUpdates(entries, at);
      assert !Broadcastable(last) ==> r == prev;
      forall k | 0 <= k < |r|
        ensures r[k].PriceUpdate? && r[k].timestamp == at &&
          exists j :: 0 <= j < |entries| && Broadcastable(entries[j]) &&
            r[k].symbol == entries[j].symbol && Some(r[k].quote) == entries[j].quote.data
      {
        if k < |prev| {
          assert r[k] == prev[k];
          var j :| 0 <= j < |init| && Broadcastable(init[j]) &&
            prev[k].symbol == init[j].symbol && Some(prev[k].quote) == init[j].quote.data;
          assert init[j] == entries[j];
        } else {
          assert Broadcastable(last);
          assert r == prev + [PriceUpdate(last.symbol, last.quote.data.value, at)];
        }
      }
      forall j | 0 <= j < |entries| && Broadcastable(entries[j])
        ensures PriceUpdate(entries[j].symbol, entries[j].quote.data.value, at) in r
      {
        if j < n {
          assert init[j] == entries[j];
        } else {
          assert r == prev + [PriceUpdate(last.symbol, last.quote.data.value, at)];
        }
      }
      if forall j :: 0 <= j < |entries| ==> Broadcastable(entries[j]) {
        assert forall j :: 0 <= j < |init| ==> Broadcastable(init[j]) by {
          forall j | 0 <= j < |init| ensures Broadcastable(init[j]) { assert init[j] == entries[j]; }
        }
      }
    }
  }

  predicate CycleSucceeded(outcome: Fetch<MarketData.Batch>)
  {
    outcome.Returned? && outcome.value.success
  }

  /** The message of a failed refresh cycle: the rejection, or the batch error unless it is empty. */
  function CycleError(outcome: Fetch<MarketData.Batch>): (m: string)
    requires !CycleSucceeded(outcome)
    ensures outcome.Threw? ==> m == outcome.message
    ensures outcome.Returned? && outcome.value.error.Some? && outcome.value.error.value != "" ==>
      m == outcome.value.error.value
    ensures outcome.Returned? && (outcome.value.error.None? || outcome.value.error == Some("")) ==>
      m == UnknownPriceUpdateError
  {
    match outcome
    case Threw(msg) => msg
    case Returned(b) =>
      if b.error.Some? && b.error.value != "" then b.error.value else UnknownPriceUpdateError
  }

  /** A refresh error is treated as a lost connection when it mentions `API` or `network`. */
  function IsConnectionError(message: string): (r: bool)
    ensures r <==> (exists i :: OccursAt(message, "API", i)) || (exists i :: OccursAt(message, "network", i))
  {
    Contains(message, "API") || Contains(message, "network")
  }

  /** What `getConnectionState()` reports. */
  datatype Snapshot = Snapshot(state: ConnState, isOnline: bool, subscribedSymbols: seq<string>,
                               lastUpdateTime: Option<int>, lastHeartbeat: Option<int>,
                               reconnectAttempts: nat)

  /** What `syncData()` resolves to. */
  datatype SyncResult =
    | NotSynced(error: string)          // `{ success: false, error }`
    | NoSymbols                         // `{ success: true, data: {}, message: 'No symbols to sync' }`
    | Synced(batch: MarketData.Batch)   // the batch of `getMultipleQuotes`, as it came
  {
    predicate Success()
    {
      match this
      case NotSynced(_) => false
      case NoSymbols => true
      case Synced(b) => b.success
    }
  }

  function RecipientsIn(listeners: map<string, seq<Callback>>, name: string): seq<Callback>
  {
    if name in listeners then listeners[name] else []
  }

  class RealTimeDataService {
    var state: ConnState
    var reconnectAttempts: nat
    /** The subscription set, in insertion order. */
    var subscribed: seq<string>
    /** Whether the price-update interval is set. */
    var refreshArmed: bool
    var lastUpdateTime: Option<int>
    /** Listener sets by event name, each in insertion order. */
    var listeners: map<string, seq<Callback>>
    var isOnline: bool
    /** Whether the heartbeat interval is set. */
    var heartbeatArmed: bool
    var lastHeartbeat: Option<int>

    /** Reconnect checks scheduled after a failure and not yet fired. */
    var reconnectChecks: nat
    /** Reconnects waiting out their backoff before they connect. */
    var backoffs: nat
    /** Connects scheduled by the network coming back and not yet fired. */
    var onlineConnects: nat
    /** Connects waiting for their connection test. */
    var probes: nat
    /** Refresh cycles waiting for their batch of quotes. */
    var cycles: nat
    /** Heartbeat ticks waiting for their status check. */
    var heartbeatChecks: nat

    /** Live price-update and heartbeat intervals. */
    ghost var refreshTimers: nat
    ghost var heartbeatTimers: nat

    /**
     * Every event emitted; beside each, the callbacks it was delivered to, in
     * order, and the listener registry at the time.
     */
    ghost var log: seq<Event>
    ghost var deliveries: seq<seq<Callback>>
    ghost var audience: seq<map<string, seq<Callback>>>

    /** The service invariant. */
    ghost predicate Valid()
      reads this
    {
      Wellformed() && (refreshArmed ==> subscribed != [])
    }

    /** The invariant, except that the refresh interval may outlive the last subscription. */
    ghost predicate Wellformed()
      reads this
    {
      SubscriptionsValid() && TimersValid() && LogValid() && reconnectAttempts <= MaxReconnectAttempts
    }

    /** The subscription set holds distinct upper-cased symbols. */
    ghost predicate SubscriptionsValid()
      reads this`subscribed
    {
      NoDuplicates(subscribed) && forall x :: x in subscribed ==> IsUpperCased(x)
    }

    /** At most one interval of each kind is live, and only while its handle is set. */
    ghost predicate TimersValid()
      reads this`refreshArmed, this`refreshTimers, this`heartbeatArmed, this`heartbeatTimers
    {
      && refreshTimers == (if refreshArmed then 1 else 0)
      && heartbeatTimers == (if heartbeatArmed then 1 else 0)
    }

    /** Each logged event reached exactly the listeners registered for its name when it was emitted. */
    ghost predicate LogValid()
      reads this`log, this`deliveries, this`audience
    {
      && |deliveries| == |log| == |audience|
      && forall i :: 0 <= i < |log| ==> deliveries[i] == RecipientsIn(audience[i], log[i].Name())
    }

    /** The callbacks currently registered for an event name. */
    function Recipients(name: string): seq<Callback>
      reads this
    {
      RecipientsIn(listeners, name)
    }

    /**
     * Every event logged since the old state was delivered with `registry` as
     * the listener registry: the audience kept its old entries and gained one
     * snapshot of `registry` per new event, that is
     * `audience == old(audience) + seq(|log| - |old(log)|, _ => registry)`.
     */
    twostate predicate EmittedTo(registry: map<string, seq<Callback>>)
      reads this`log, this`audience
    {
      && |old(log)| <= |log|
      && |audience| == |old(audience)| + (|log| - |old(log)|)
      && (forall i :: 0 <= i < |old(audience)| ==> audience[i] == old(audience)[i])
      && (forall i :: |old(audience)| <= i < |audience| ==> audience[i] == registry)
    }

    constructor (online: bool)
      ensures Valid()
      ensures state == Disconnected && reconnectAttempts == 0 && subscribed == []
      ensures !refreshArmed && !heartbeatArmed && lastUpdateTime == None && lastHeartbeat == None
      ensures listeners == map[] && isOnline == online
      ensures reconnectChecks == 0 && backoffs == 0 && onlineConnects == 0
      ensures probes == 0 && cycles == 0 && heartbeatChecks == 0
      ensures log == [] && deliveries == [] && audience == []
    {
      state := Disconnected;
      reconnectAttempts := 0;
      subscribed := [];
      refreshArmed := false;
      lastUpdateTime := None;
      listeners := map[];
      isOnline := online;
      heartbeatArmed := false;
      lastHeartbeat := None;
      reconnectChecks := 0;
      backoffs := 0;
      onlineConnects := 0;
      probes := 0;
      cycles := 0;
      heartbeatChecks := 0;
      refreshTimers := 0;
      heartbeatTimers := 0;
      log := [];
      deliveries := [];
      audience := [];
    }

    // -------------------------------------------------------------------------
    // Event bus

    /** Calls every listener of the event's name once, in registration order. */
    method Emit(e: Event)
      requires LogValid()
      modifies this`log, this`deliveries, this`audience
      ensures LogValid()
      ensures log == old(log) + [e]
      ensures deliveries == old(deliveries) + [Recipients(e.Name())]
      ensures audience == old(audience) + [listeners]
    {
      ghost var called: seq<Callback> := [];
      var name := e.Name();
      if name in listeners {
        var callbacks := listeners[name];
        for i := 0 to |callbacks|
          invariant called == callbacks[..i]
        {
          // A throwing callback is caught and does not stop the others.
          called := called + [callbacks[i]];
        }
        assert callbacks[..|callbacks|] == callbacks;
      }
      log := log + [e];
      deliveries := deliveries + [called];
      audience := audience + [listeners];
    }

    /** Registers a callback; the function `on` returns has the effect of `Off` with the same arguments. */
    method On(name: string, callback: Callback)
      requires Valid()
      modifies this`listeners
      ensures Valid()
      ensures NoDuplicates(old(Recipients(name))) ==> NoDuplicates(Recipients(name))
      ensures listeners == old(listeners)[name := SetAdd(old(Recipients(name)), callback)]
      ensures callback in Recipients(name)
    {
      var current := if name in listeners then listeners[name] else [];
      listeners := listeners[name := SetAdd(current, callback)];
    }

    method Off(name: string, callback: Callback)
      requires Valid()
      modifies this`listeners
      ensures Valid()
      ensures name in old(listeners) ==> listeners == old(listeners)[name := SetDelete(old(listeners)[name], callback)]
      ensures name !in old(listeners) ==> listeners == old(listeners)
      ensures callback !in Recipients(name)
    {
      if name in listeners {
        listeners := listeners[name := SetDelete(listeners[name], callback)];
      }
    }

    // -------------------------------------------------------------------------
    // Connection management

    /** `scheduleReconnect`: arms a one-second reconnect check, unless offline. */
    method ScheduleReconnect()
      modifies this`reconnectChecks
      ensures reconnectChecks == old(reconnectChecks) + (if isOnline then 1 else 0)
    {
      if isOnline {
        reconnectChecks := reconnectChecks + 1;
      }
    }

    /** The synchronous part of `connect()`: up to awaiting the connection test. */
    method Connect() returns (started: bool)
      requires Valid()
      modifies this`state, this`probes, this`log, this`deliveries, this`audience
      ensures Valid()
      ensures started <==> old(state) == Disconnected || old(state) == Reconnecting
      ensures started ==> state == Connecting && probes == old(probes) + 1 && log == old(log) + [ConnectingEvent]
      ensures !started ==> state == old(state) && probes == old(probes) && log == old(log)
      ensures EmittedTo(listeners)
    {
      if state == Connected || state == Connecting {
        return false;
      }
      state := Connecting;
      Emit(ConnectingEvent);
      probes := probes + 1;
      started := true;
    }

    /** The continuation of `connect()` once the connection test settles. */
    method SettleProbe(probe: Probe)
      requires Valid() && probes > 0
      modifies this`state, this`reconnectAttempts, this`heartbeatArmed, this`heartbeatTimers,
               this`refreshArmed, this`refreshTimers, this`cycles, this`reconnectChecks,
               this`probes, this`log, this`deliveries, this`audience
      ensures Valid()
      ensures probes == old(probes) - 1
      ensures probe.Answered? ==>
        && state == Connected && reconnectAttempts == 0 && heartbeatArmed
        && refreshArmed == (old(refreshArmed) || subscribed != [])
        && log == old(log) + [ConnectedEvent] + StartEvents(old(refreshArmed), subscribed, isOnline, Connected)
        && cycles == old(cycles) + (if StartsCycle(old(refreshArmed), subscribed, isOnline, Connected) then 1 else 0)
        && reconnectChecks == old(reconnectChecks)
      ensures !probe.Answered? ==>
        && state == Disconnected
        && log == old(log) + [FailedConnectEvent(ProbeError(probe).value)]
        && reconnectChecks == old(reconnectChecks) + (if isOnline then 1 else 0)
        && reconnectAttempts == old(reconnectAttempts) && heartbeatArmed == old(heartbeatArmed)
        && refreshArmed == old(refreshArmed) && cycles == old(cycles)
      ensures EmittedTo(listeners)
    {
      probes := probes - 1;
      if probe.Answered? {
        Establish();
      } else {
        ConnectFailed(ProbeError(probe).value);
      }
    }

    /** The success path of `connect()`: connected, heartbeat on, refresh started when there are subscriptions. */
    method Establish()
      requires Valid()
      modifies this`state, this`reconnectAttempts, this`heartbeatArmed, this`heartbeatTimers,
               this`refreshArmed, this`refreshTimers, this`cycles, this`log, this`deliveries, this`audience
      ensures Valid()
      ensures state == Connected && reconnectAttempts == 0 && heartbeatArmed
      ensures refreshArmed == (old(refreshArmed) || subscribed != [])
      ensures log == old(log) + [ConnectedEvent] + StartEvents(old(refreshArmed), subscribed, isOnline, Connected)
      ensures cycles == old(cycles) + (if StartsCycle(old(refreshArmed), subscribed, isOnline, Connected) then 1 else 0)
      ensures EmittedTo(listeners)
    {
      state := Connected;
      reconnectAttempts := 0;
      StartHeartbeat();
      AnnounceConnected();
    }

    /** The end of a successful `connect()`: the connected event, then the price refresh if there are subscriptions. */
    method AnnounceConnected()
      requires Valid() && state == Connected
      modifies this`refreshArmed, this`refreshTimers, this`cycles, this`log, this`deliveries, this`audience
      ensures Valid()
      ensures refreshArmed == (old(refreshArmed) || subscribed != [])
      ensures log == old(log) + [ConnectedEvent] + StartEvents(old(refreshArmed), subscribed, isOnline, Connected)
      ensures cycles == old(cycles) + (if StartsCycle(old(refreshArmed), subscribed, isOnline, Connected) then 1 else 0)
      ensures EmittedTo(listeners)
    {
      Emit(ConnectedEvent);
      if subscribed != [] {
        StartPriceUpdates();
      }
    }

    /** The failure path of `connect()`: disconnected, and a reconnect check scheduled when online. */
    method ConnectFailed(error: string)
      requires Valid()
      modifies this`state, this`reconnectChecks, this`log, this`deliveries, this`audience
      ensures Valid()
      ensures state == Disconnected
      ensures log == old(log) + [FailedConnectEvent(error)]
      ensures reconnectChecks == old(reconnectChecks) + (if isOnline then 1 else 0)
      ensures EmittedTo(listeners)
    {
      state := Disconnected;
      Emit(FailedConnectEvent(error));
      ScheduleReconnect();
    }

    method Disconnect()
      requires Valid()
      modifies this`state, this`refreshArmed, this`refreshTimers, this`heartbeatArmed,
               this`heartbeatTimers, this`log, this`deliveries, this`audience
      ensures Valid()
      ensures state == Disconnected && !refreshArmed && !heartbeatArmed
      ensures log == old(log) + (if old(refreshArmed) then [PriceUpdatesStopped] else []) + [UserDisconnectEvent]
      ensures EmittedTo(listeners)
    {
      state := Disconnected;
      StopPriceUpdates();
      StopHeartbeat();
      Emit(UserDisconnectEvent);
    }

    /** The synchronous part of `reconnect()`: up to awaiting the backoff, whose length it returns. */
    method Reconnect() returns (delay: Option<nat>)
      requires Valid()
      modifies this`reconnectAttempts, this`state, this`backoffs, this`log, this`deliveries, this`audience
      ensures Valid()
      ensures old(reconnectAttempts) >= MaxReconnectAttempts ==>
        && delay == None && log == old(log) + [MaxAttemptsEvent]
        && state == old(state) && reconnectAttempts == old(reconnectAttempts) && backoffs == old(backoffs)
      ensures old(reconnectAttempts) < MaxReconnectAttempts ==>
        && reconnectAttempts == old(reconnectAttempts) + 1 && state == Reconnecting
        && delay == Some(BackoffDelay(reconnectAttempts)) && backoffs == old(backoffs) + 1
        && log == old(log) + [ReconnectingEvent(reconnectAttempts)]
      ensures EmittedTo(listeners)
    {
      if reconnectAttempts >= MaxReconnectAttempts {
        Emit(MaxAttemptsEvent);
        return None;
      }
      reconnectAttempts := reconnectAttempts + 1;
      state := Reconnecting;
      Emit(ReconnectingEvent(reconnectAttempts));
      backoffs := backoffs + 1;
      delay := Some(BackoffDelay(reconnectAttempts));
    }

    /** The continuation of `reconnect()` once its backoff has elapsed: it connects. */
    method BackoffElapsed() returns (started: bool)
      requires Valid() && backoffs > 0
      modifies this`backoffs, this`state, this`probes, this`log, this`deliveries, this`audience
      ensures Valid()
      ensures backoffs == old(backoffs) - 1
      ensures started <==> old(state) == Disconnected || old(state) == Reconnecting
      ensures started ==> state == Connecting && probes == old(probes) + 1 && log == old(log) + [ConnectingEvent]
      ensures !started ==> state == old(state) && probes == old(probes) && log == old(log)
      ensures EmittedTo(listeners)
    {
      backoffs := backoffs - 1;
      started := Connect();
    }

    /** The reconnect check `scheduleReconnect` armed: it reconnects only from `Disconnected`. */
    method ReconnectCheckFired() returns (delay: Option<nat>)
      requires Valid() && reconnectChecks > 0
      modifies this`reconnectChecks, this`reconnectAttempts, this`state, this`backoffs, this`log, this`deliveries, this`audience
      ensures Valid()
      ensures reconnectChecks == old(reconnectChecks) - 1
      ensures old(state) != Disconnected ==>
        && delay == None && log == old(log) && state == old(state)
        && reconnectAttempts == old(reconnectAttempts) && backoffs == old(backoffs)
      ensures old(state) == Disconnected && old(reconnectAttempts) >= MaxReconnectAttempts ==>
        && delay == None && log == old(log) + [MaxAttemptsEvent] && state == Disconnected
        && reconnectAttempts == old(reconnectAttempts) && backoffs == old(backoffs)
      ensures old(state) == Disconnected && old(reconnectAttempts) < MaxReconnectAttempts ==>
        && reconnectAttempts == old(reconnectAttempts) + 1 && state == Reconnecting
        && delay == Some(BackoffDelay(reconnectAttempts)) && backoffs == old(backoffs) + 1
        && log == old(log) + [ReconnectingEvent(reconnectAttempts)]
      ensures EmittedTo(listeners)
    {
      reconnectChecks := reconnectChecks - 1;
      if state == Disconnected {
        delay := Reconnect();
      } else {
        delay := None;
      }
    }

    // -------------------------------------------------------------------------
    // Subscriptions

    method Subscribe(symbol: string)
      requires Valid()
      modifies this`subscribed, this`refreshArmed, this`refreshTimers, this`cycles, this`log, this`deliveries, this`audience
      ensures Valid()
      ensures subscribed == SetAdd(old(subscribed), Upper(symbol))
      ensures Upper(symbol) in subscribed
      ensures state == Connected && !old(refreshArmed) ==>
        && refreshArmed
        && log == old(log) + [SymbolSubscribed(Upper(symbol), |subscribed|)]
                          + StartEvents(false, subscribed, isOnline, state)
        && cycles == old(cycles) + (if isOnline then 1 else 0)
      ensures !(state == Connected && !old(refreshArmed)) ==>
        && refreshArmed == old(refreshArmed) && cycles == old(cycles)
        && log == old(log) + [SymbolSubscribed(Upper(symbol), |subscribed|)]
      ensures EmittedTo(listeners)
    {
      var normalized := Upper(symbol);
      UpperIsUpperCased(symbol);
      subscribed := SetAdd(subscribed, normalized);
      AnnounceSubscription(normalized);
    }

    /** The end of `subscribe()`: the subscription event, then the refresh if connected and not yet running. */
    method AnnounceSubscription(symbol: string)
      requires Valid() && subscribed != []
      modifies this`refreshArmed, this`refreshTimers, this`cycles, this`log, this`deliveries, this`audience
      ensures Valid()
      ensures state == Connected && !old(refreshArmed) ==>
        && refreshArmed
        && log == old(log) + [SymbolSubscribed(symbol, |subscribed|)] + StartEvents(false, subscribed, isOnline, state)
        && cycles == old(cycles) + (if isOnline then 1 else 0)
      ensures !(state == Connected && !old(refreshArmed)) ==>
        && refreshArmed == old(refreshArmed) && cycles == old(cycles)
        && log == old(log) + [SymbolSubscribed(symbol, |subscribed|)]
      ensures EmittedTo(listeners)
    {
      Emit(SymbolSubscribed(symbol, |subscribed|));
      if state == Connected && !refreshArmed {
        StartPriceUpdates();
      }
    }

    method Unsubscribe(symbol: string)
      requires Valid()
      modifies this`subscribed, this`refreshArmed, this`refreshTimers, this`log, this`deliveries, this`audience
      ensures Valid()
      ensures subscribed == SetDelete(old(subscribed), Upper(symbol))
      ensures Upper(symbol) !in subscribed
      ensures Upper(symbol) !in old(subscribed) ==>
        log == old(log) && refreshArmed == old(refreshArmed)
      ensures Upper(symbol) in old(subscribed) ==>
        && |subscribed| == |old(subscribed)| - 1
        && refreshArmed == (old(refreshArmed) && subscribed != [])
        && log == old(log) + [SymbolUnsubscribed(Upper(symbol), |subscribed|)]
                          + (if subscribed == [] && old(refreshArmed) then [PriceUpdatesStopped] else [])
      ensures EmittedTo(listeners)
    {
      var normalized := Upper(symbol);
      var wasSubscribed := normalized in subscribed;
      subscribed := SetDelete(subscribed, normalized);
      if wasSubscribed {
        Emit(SymbolUnsubscribed(normalized, |subscribed|));
        if |subscribed| == 0 {
          StopPriceUpdates();
        }
      }
    }

    /** `getSubscriptions()`: the set as an array. */
    function GetSubscriptions(): (r: seq<string>)
      reads this
      ensures Valid() ==> NoDuplicates(r) && forall x :: x in r ==> IsUpperCased(x)
    {
      subscribed
    }

    // -------------------------------------------------------------------------
    // Price updates

    /** `startPriceUpdates`: sets the interval once, after running the first cycle's synchronous part. */
    method StartPriceUpdates()
      requires Valid()
      modifies this`refreshArmed, this`refreshTimers, this`cycles, this`log, this`deliveries, this`audience
      ensures Valid()
      ensures refreshArmed == (old(refreshArmed) || subscribed != [])
      ensures log == old(log) + StartEvents(old(refreshArmed), subscribed, isOnline, state)
      ensures cycles == old(cycles) + (if StartsCycle(old(refreshArmed), subscribed, isOnline, state) then 1 else 0)
      ensures EmittedTo(listeners)
    {
      if refreshArmed || |subscribed| == 0 {
        return;
      }
      Emit(PriceUpdatesStarted(subscribed, UpdateIntervalMs));
      var _ := BeginPriceCycle();
      refreshArmed := true;
      refreshTimers := refreshTimers + 1;
    }

    /** The synchronous part of `updatePrices`: its guards and `priceUpdateStarted`, up to awaiting the batch. */
    method BeginPriceCycle() returns (started: bool)
      requires Valid()
      modifies this`cycles, this`log, this`deliveries, this`audience
      ensures Valid()
      ensures started <==> isOnline && state == Connected
      ensures log == old(log) + CycleEvents(isOnline, state)
      ensures cycles == old(cycles) + (if started then 1 else 0)
      ensures EmittedTo(listeners)
    {
      if !isOnline || state != Connected {
        return false;
      }
      Emit(PriceUpdateStarted);
      cycles := cycles + 1;
      started := true;
    }

    /** A tick of the price-update interval. */
    method RefreshTimerFired() returns (started: bool)
      requires Valid() && refreshArmed
      modifies this`cycles, this`log, this`deliveries, this`audience
      ensures Valid()
      ensures started <==> isOnline && state == Connected
      ensures log == old(log) + CycleEvents(isOnline, state)
      ensures cycles == old(cycles) + (if started then 1 else 0)
      ensures EmittedTo(listeners)
    {
      started := BeginPriceCycle();
    }

    /** The continuation of `updatePrices` once the batch of quotes settles. */
    method CompletePriceCycle(now: int, outcome: Fetch<MarketData.Batch>)
      requires Valid() && cycles > 0
      modifies this`cycles, this`lastUpdateTime, this`state, this`reconnectChecks, this`log, this`deliveries, this`audience
      ensures Valid()
      ensures cycles == old(cycles) - 1
      ensures lastUpdateTime == (if outcome.Returned? then Some(now) else old(lastUpdateTime))
      ensures CycleSucceeded(outcome) ==>
        && log == old(log) + PriceUpdates(outcome.value.data, now)
                          + [PriceUpdateCompleted(outcome.value.data, now, |outcome.value.data|)]
        && state == old(state) && reconnectChecks == old(reconnectChecks)
      ensures !CycleSucceeded(outcome) ==>
        && log == old(log) + [PriceUpdateError(CycleError(outcome))]
        && (IsConnectionError(CycleError(outcome)) ==>
              state == Disconnected && reconnectChecks == old(reconnectChecks) + (if isOnline then 1 else 0))
        && (!IsConnectionError(CycleError(outcome)) ==>
              state == old(state) && reconnectChecks == old(reconnectChecks))
      ensures EmittedTo(listeners)
    {
      cycles := cycles - 1;
      if outcome.Returned? {
        lastUpdateTime := Some(now);
      }
      if CycleSucceeded(outcome) {
        PublishBatch(outcome.value.data, now);
      } else {
        CycleFailed(CycleError(outcome));
      }
    }

    /** A successful batch: one `priceUpdate` per result with data, then `priceUpdateCompleted`. */
    method PublishBatch(entries: seq<MarketData.Entry>, now: int)
      requires Valid()
      modifies this`log, this`deliveries, this`audience
      ensures Valid()
      ensures log == old(log) + PriceUpdates(entries, now) + [PriceUpdateCompleted(entries, now, |entries|)]
      ensures EmittedTo(listeners)
    {
      BroadcastQuotes(entries, now);
      Emit(PriceUpdateCompleted(entries, now, |entries|));
    }

    /** A failed cycle: `priceUpdateError`, and a lost connection when the message says so. */
    method CycleFailed(message: string)
      requires Valid()
      modifies this`state, this`reconnectChecks, this`log, this`deliveries, this`audience
      ensures Valid()
      ensures log == old(log) + [PriceUpdateError(message)]
      ensures IsConnectionError(message) ==>
        state == Disconnected && reconnectChecks == old(reconnectChecks) + (if isOnline then 1 else 0)
      ensures !IsConnectionError(message) ==> state == old(state) && reconnectChecks == old(reconnectChecks)
      ensures EmittedTo(listeners)
    {
      Emit(PriceUpdateError(message));
      if IsConnectionError(message) {
        state := Disconnected;
        ScheduleReconnect();
      }
    }

    /** The `forEach` over a successful batch: one `priceUpdate` per result that has data. */
    method BroadcastQuotes(entries: seq<MarketData.Entry>, now: int)
      requires Valid()
      modifies this`log, this`deliveries, this`audience
      ensures Valid()
      ensures log == old(log) + PriceUpdates(entries, now)
      ensures EmittedTo(listeners)
    {
      for i := 0 to |entries|
        invariant Valid()
        invariant log == old(log) + PriceUpdates(entries[..i], now)
        invariant EmittedTo(listeners)
      {
        assert entries[..i + 1][..i] == entries[..i];
        if Broadcastable(entries[i]) {
          var e := PriceUpdate(entries[i].symbol, entries[i].quote.data.value, now);
          Emit(e);
        }
      }
      assert entries[..|entries|] == entries;
    }

    method StopPriceUpdates()
      requires Wellformed()
      modifies this`refreshArmed, this`refreshTimers, this`log, this`deliveries, this`audience
      ensures Valid()
      ensures !refreshArmed
      ensures log == old(log) + (if old(refreshArmed) then [PriceUpdatesStopped] else [])
      ensures EmittedTo(listeners)
    {
      if refreshArmed {
        refreshArmed := false;
        refreshTimers := refreshTimers - 1;
        Emit(PriceUpdatesStopped);
      }
    }

    // -------------------------------------------------------------------------
    // Heartbeat

    /** `startHeartbeat`: clears any heartbeat interval before setting a new one. */
    method StartHeartbeat()
      requires Valid()
      modifies this`heartbeatArmed, this`heartbeatTimers
      ensures Valid()
      ensures heartbeatArmed
    {
      StopHeartbeat();
      heartbeatArmed := true;
      heartbeatTimers := heartbeatTimers + 1;
    }

    method StopHeartbeat()
      requires Valid()
      modifies this`heartbeatArmed, this`heartbeatTimers
      ensures Valid()
      ensures !heartbeatArmed
    {
      if heartbeatArmed {
        heartbeatArmed := false;
        heartbeatTimers := heartbeatTimers - 1;
      }
    }

    /** A tick of the heartbeat interval, up to awaiting the status check. */
    method HeartbeatFired()
      requires Valid() && heartbeatArmed
      modifies this`heartbeatChecks
      ensures heartbeatChecks == old(heartbeatChecks) + 1
    {
      heartbeatChecks := heartbeatChecks + 1;
    }

    /** The continuation of a heartbeat tick: only a rejected check counts as a failure. */
    method SettleHeartbeat(now: int, probe: Probe)
      requires Valid() && heartbeatChecks > 0
      modifies this`heartbeatChecks, this`lastHeartbeat, this`state, this`reconnectChecks, this`log, this`deliveries, this`audience
      ensures Valid()
      ensures heartbeatChecks == old(heartbeatChecks) - 1
      ensures !probe.Failed? ==>
        && lastHeartbeat == Some(now)
        && log == old(log) + [Heartbeat(now, if probe.Answered? then Some(probe.status) else None)]
        && state == old(state) && reconnectChecks == old(reconnectChecks)
      ensures probe.Failed? ==>
        && lastHeartbeat == old(lastHeartbeat)
        && log == old(log) + [HeartbeatFailed(probe.message)]
        && (old(state) == Connected ==>
              state == Disconnected && reconnectChecks == old(reconnectChecks) + (if isOnline then 1 else 0))
        && (old(state) != Connected ==> state == old(state) && reconnectChecks == old(reconnectChecks))
      ensures EmittedTo(listeners)
    {
      heartbeatChecks := heartbeatChecks - 1;
      match probe {
        case Answered(status) =>
          lastHeartbeat := Some(now);
          Emit(Heartbeat(now, Some(status)));
        case Falsy =>
          lastHeartbeat := Some(now);
          Emit(Heartbeat(now, None));
        case Failed(m) =>
          HeartbeatLost(m);
      }
    }

    /** A rejected status check: one error event, and a connected service drops to disconnected. */
    method HeartbeatLost(message: string)
      requires Valid()
      modifies this`state, this`reconnectChecks, this`log, this`deliveries, this`audience
      ensures Valid()
      ensures log == old(log) + [HeartbeatFailed(message)]
      ensures old(state) == Connected ==>
        state == Disconnected && reconnectChecks == old(reconnectChecks) + (if isOnline then 1 else 0)
      ensures old(state) != Connected ==> state == old(state) && reconnectChecks == old(reconnectChecks)
      ensures EmittedTo(listeners)
    {
      Emit(HeartbeatFailed(message));
      if state == Connected {
        state := Disconnected;
        ScheduleReconnect();
      }
    }

    // -------------------------------------------------------------------------
    // Network state

    /** The window `online` handler. */
    method GoOnline()
      requires Valid()
      modifies this`isOnline, this`onlineConnects, this`log, this`deliveries, this`audience
      ensures Valid()
      ensures isOnline
      ensures log == old(log) + [NetworkStateChanged(true)]
      ensures onlineConnects == old(onlineConnects) + (if state == Disconnected then 1 else 0)
      ensures EmittedTo(listeners)
    {
      isOnline := true;
      Emit(NetworkStateChanged(true));
      if state == Disconnected {
        onlineConnects := onlineConnects + 1;
      }
    }

    /** The window `offline` handler. */
    method GoOffline()
      requires Valid()
      modifies this`isOnline, this`refreshArmed, this`refreshTimers, this`state, this`log, this`deliveries, this`audience
      ensures Valid()
      ensures !isOnline && !refreshArmed
      ensures log == old(log) + [NetworkStateChanged(false)] + (if old(refreshArmed) then [PriceUpdatesStopped] else [])
      ensures state == (if old(state) == Connected then Disconnected else old(state))
      ensures EmittedTo(listeners)
    {
      isOnline := false;
      AnnounceOffline();
      if state == Connected {
        state := Disconnected;
      }
    }

    /** The middle of the `offline` handler: the network event, then the refresh stopped. */
    method AnnounceOffline()
      requires Valid()
      modifies this`refreshArmed, this`refreshTimers, this`log, this`deliveries, this`audience
      ensures Valid()
      ensures !refreshArmed
      ensures log == old(log) + [NetworkStateChanged(false)] + (if old(refreshArmed) then [PriceUpdatesStopped] else [])
      ensures EmittedTo(listeners)
    {
      Emit(NetworkStateChanged(false));
      StopPriceUpdates();
    }

    /** The connect the `online` handler scheduled. */
    method OnlineConnectFired() returns (started: bool)
      requires Valid() && onlineConnects > 0
      modifies this`onlineConnects, this`state, this`probes, this`log, this`deliveries, this`audience
      ensures Valid()
      ensures onlineConnects == old(onlineConnects) - 1
      ensures started <==> old(state) == Disconnected || old(state) == Reconnecting
      ensures started ==> state == Connecting && probes == old(probes) + 1 && log == old(log) + [ConnectingEvent]
      ensures !started ==> state == old(state) && probes == old(probes) && log == old(log)
      ensures EmittedTo(listeners)
    {
      onlineConnects := onlineConnects - 1;
      started := Connect();
    }

    // -------------------------------------------------------------------------
    // Utilities

    function GetConnectionState(): (r: Snapshot)
      reads this
      ensures Valid() ==> r.reconnectAttempts <= MaxReconnectAttempts && NoDuplicates(r.subscribedSymbols)
      ensures Valid() ==> forall x :: x in r.subscribedSymbols ==> IsUpperCased(x)
    {
      Snapshot(state, isOnline, subscribed, lastUpdateTime, lastHeartbeat, reconnectAttempts)
    }

    /**
     * `syncData()`, given how its batch request settles.  The request and its
     * settling are one step here: the completion or error event goes to the
     * listeners registered when the call began, where the source emits it to
     * those registered when the request settles.
     */
    method SyncData(outcome: Fetch<MarketData.Batch>) returns (r: SyncResult)
      requires Valid()
      modifies this`log, this`deliveries, this`audience
      ensures Valid()
      ensures !(state == Connected && isOnline) ==> r == NotSynced(NotConnectedOrOffline) && log == old(log)
      ensures state == Connected && isOnline && subscribed == [] ==> r == NoSymbols && log == old(log) + [SyncStarted]
      ensures state == Connected && isOnline && subscribed != [] && outcome.Returned? ==>
        && r == Synced(outcome.value)
        && log == old(log) + [SyncStarted, SyncCompleted(outcome.value.data, outcome.value.success)]
      ensures state == Connected && isOnline && subscribed != [] && outcome.Threw? ==>
        r == NotSynced(outcome.message) && log == old(log) + [SyncStarted, SyncError(outcome.message)]
      ensures EmittedTo(listeners)
    {
      if state != Connected || !isOnline {
        return NotSynced(NotConnectedOrOffline);
      }
      Emit(SyncStarted);
      if |subscribed| > 0 {
        match outcome {
          case Returned(batch) =>
            Emit(SyncCompleted(batch.data, batch.success));
            return Synced(batch);
          case Threw(m) =>
            Emit(SyncError(m));
            return NotSynced(m);
        }
      }
      return NoSymbols;
    }

    /** `destroy()`: disconnects and drops every listener (the window handlers stay attached). */
    method Destroy()
      requires Valid()
      modifies this`state, this`refreshArmed, this`refreshTimers, this`heartbeatArmed,
               this`heartbeatTimers, this`listeners, this`log, this`deliveries, this`audience
      ensures Valid()
      ensures state == Disconnected && !refreshArmed && !heartbeatArmed && listeners == map[]
      ensures log == old(log) + (if old(refreshArmed) then [PriceUpdatesStopped] else []) + [UserDisconnectEvent]
      ensures EmittedTo(old(listeners))
    {
      Disconnect();
      StopHeartbeat();
      listeners := map[];
    }
  }

  /**
   * A service that is online but whose connection test keeps failing: each
   * failure schedules a check, each check reconnects after a doubled backoff,
   * and the check after the fifth failed reconnect gives up.
   */
  method RetriesExhausted(error: string) returns (delays: seq<nat>, last: Option<nat>)
    ensures delays == BackoffSchedule(MaxReconnectAttempts)
    ensures last == None
  {
    var svc := new RealTimeDataService(true);
    var _ := svc.Connect();
    svc.SettleProbe(Failed(error));
    delays := [];
    while svc.reconnectAttempts < MaxReconnectAttempts
      invariant svc.Valid() && svc.isOnline
      invariant svc.state == Disconnected && svc.reconnectChecks == 1
      invariant svc.backoffs == 0 && svc.probes == 0
      invariant delays == BackoffSchedule(svc.reconnectAttempts)
      decreases MaxReconnectAttempts - svc.reconnectAttempts
    {
      var delay := FailedRetry(svc, error);
      delays := delays + [delay];
    }
    last := svc.ReconnectCheckFired();
  }

  /** One round of `RetriesExhausted`: the check fires, the backoff elapses and the reconnect fails. */
  method FailedRetry(svc: RealTimeDataService, error: string) returns (delay: nat)
    requires svc.Valid() && svc.isOnline && svc.state == Disconnected && svc.reconnectChecks == 1
    requires svc.backoffs == 0 && svc.probes == 0 && svc.reconnectAttempts < MaxReconnectAttempts
    modifies svc
    ensures svc.Valid() && svc.isOnline && svc.state == Disconnected && svc.reconnectChecks == 1
    ensures svc.backoffs == 0 && svc.probes == 0
    ensures svc.reconnectAttempts == old(svc.reconnectAttempts) + 1
    ensures delay == BackoffDelay(svc.reconnectAttempts)
  {
    var d := svc.ReconnectCheckFired();
    delay := d.value;
    var _ := svc.BackoffElapsed();
    svc.SettleProbe(Failed(error));
  }
}
