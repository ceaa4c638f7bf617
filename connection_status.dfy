/**
 * The connection indicator: status text, colour and icon derived from the
 * connection state and the network flag, the time since the last update,
 * the tooltip's symbol tags, and the handlers that keep its copy of the
 * service's state.
 */
module ConnectionView {
  import opened Base
  import opened Text
  import opened RealTime

  const Red := "var(--accent-red)"
  const Green := "var(--accent-green)"
  const Gold := "var(--accent-gold)"

  const PlugIcon := "\U{1F50C}"
  const GreenIcon := "\U{1F7E2}"
  const YellowIcon := "\U{1F7E1}"
  const RedIcon := "\U{1F534}"

  const ReconnectingPrefix := "Reconnecting... ("
  const ReconnectingSuffix := "/5)"

  /** At most this many symbol tags are shown. */
  const MaxTags: nat := 5

  function StatusColor(online: bool, state: ConnState): (r: string)
    ensures !online || state == Disconnected ==> r == Red
    ensures online && state == Connected ==> r == Green
    ensures online && (state == Connecting || state == Reconnecting) ==> r == Gold
  {
    if !online then Red
    else match state
      case Connected => Green
      case Connecting => Gold
      case Reconnecting => Gold
      case Disconnected => Red
  }

  function StatusText(online: bool, state: ConnState, attempts: nat): (r: string)
    ensures !online ==> r == "Offline"
    ensures online && state == Connected ==> r == "Live"
    ensures online && state == Connecting ==> r == "Connecting..."
    ensures online && state == Reconnecting ==> r == ReconnectingPrefix + NatToString(attempts) + ReconnectingSuffix
    ensures online && state == Disconnected ==> r == "Disconnected"
  {
    if !online then "Offline"
    else match state
      case Connected => "Live"
      case Connecting => "Connecting..."
      case Reconnecting => ReconnectingPrefix + NatToString(attempts) + ReconnectingSuffix
      case Disconnected => "Disconnected"
  }

  function StatusIcon(online: bool, state: ConnState): (r: string)
    ensures !online ==> r == PlugIcon
    ensures online && state == Connected ==> r == GreenIcon
    ensures online && (state == Connecting || state == Reconnecting) ==> r == YellowIcon
    ensures online && state == Disconnected ==> r == RedIcon
  {
    if !online then PlugIcon
    else match state
      case Connected => GreenIcon
      case Connecting => YellowIcon
      case Reconnecting => YellowIcon
      case Disconnected => RedIcon
  }

  lemma ReconnectingTextsDiffer(a: nat, b: nat)
    ensures ReconnectingPrefix + NatToString(a) + ReconnectingSuffix == ReconnectingPrefix + NatToString(b) + ReconnectingSuffix ==> a == b
  {
    var ta, tb := ReconnectingPrefix + NatToString(a) + ReconnectingSuffix, ReconnectingPrefix + NatToString(b) + ReconnectingSuffix;
    if ta == tb {
      var n := |ReconnectingPrefix|;
      assert |NatToString(a)| == |NatToString(b)|;
      assert NatToString(a) == ta[n..n + |NatToString(a)|];
      assert NatToString(b) == tb[n..n + |NatToString(b)|];
      NatToStringInjective(a, b);
    }
  }

  /**
   * The text tells the user the whole status: two situations read alike only
   * if both are offline, or both are online in the same state (and, when
   * reconnecting, on the same attempt).
   */
  lemma StatusTextDistinguishes(o1: bool, s1: ConnState, a1: nat, o2: bool, s2: ConnState, a2: nat)
    requires StatusText(o1, s1, a1) == StatusText(o2, s2, a2)
    ensures o1 == o2
    ensures o1 ==> s1 == s2
    ensures o1 && s1 == Reconnecting ==> a1 == a2
  {
    var t := StatusText(o1, s1, a1);
    if (o1 && s1 == Reconnecting) || (o2 && s2 == Reconnecting) {
      // Only the reconnecting text starts with 'R'.
      assert t[0] == 'R';
    }
    if o1 && s1 == Reconnecting && o2 && s2 == Reconnecting {
      ReconnectingTextsDiffer(a1, a2);
    }
  }

  /** The colour and the icon agree with the text: green and the green dot exactly when "Live". */
  lemma StatusViewsAgree(online: bool, state: ConnState, attempts: nat)
    ensures StatusColor(online, state) == Green <==> StatusText(online, state, attempts) == "Live"
    ensures StatusIcon(online, state) == GreenIcon <==> StatusText(online, state, attempts) == "Live"
    ensures StatusColor(online, state) == Gold <==> StatusIcon(online, state) == YellowIcon
    ensures StatusColor(online, state) == Red <==> StatusIcon(online, state) in {PlugIcon, RedIcon}
    ensures StatusColor(online, state) == Red <==> StatusText(online, state, attempts) in {"Offline", "Disconnected"}
  {
  }

  /**
   * `formatLastUpdate()`: `localeTime` stands for `toLocaleTimeString()` of
   * the update time.  A missing time and the timestamp 0 are both falsy.
   */
  function FormatLastUpdate(last: Option<int>, now: int, localeTime: string): (r: string)
    ensures last.None? || last.value == 0 ==> r == "Never"
    ensures last.Some? && last.value != 0 && now - last.value < 3600000 ==>
      |r| >= 4 && r[|r| - 4..] == " ago"
    ensures last.Some? && last.value != 0 && now - last.value >= 3600000 ==> r == localeTime
  {
    if last.None? || last.value == 0 then "Never"
    else
      var diff := now - last.value;
      // `Math.floor(diff / unit)` with a positive unit is Euclidean division.
      if diff < 60000 then IntToString(diff / 1000) + "s ago"
      else if diff < 3600000 then IntToString(diff / 60000) + "m ago"
      else localeTime
  }

  /**
   * The seconds and minutes shown are the whole units elapsed: for a time at
   * most a minute old, the n with n seconds <= diff < n + 1 seconds (0..59 for
   * a time in the past); for one under an hour old, whole minutes 1..59.
   */
  lemma {:induction false} FormatLastUpdateSpec(last: Option<int>, now: int, localeTime: string)
    ensures last.None? || last.value == 0 ==> FormatLastUpdate(last, now, localeTime) == "Never"
    ensures last.Some? && last.value != 0 && now - last.value < 60000 ==>
      exists n: int :: n * 1000 <= now - last.value < n * 1000 + 1000
        && (now >= last.value ==> 0 <= n < 60)
        && FormatLastUpdate(last, now, localeTime) == IntToString(n) + "s ago"
    ensures last.Some? && last.value != 0 && 60000 <= now - last.value < 3600000 ==>
      exists n: int :: n * 60000 <= now - last.value < n * 60000 + 60000 && 1 <= n < 60
        && FormatLastUpdate(last, now, localeTime) == IntToString(n) + "m ago"
    ensures last.Some? && last.value != 0 && now - last.value >= 3600000 ==>
      FormatLastUpdate(last, now, localeTime) == localeTime
  {
    if last.Some? && last.value != 0 {
      var diff := now - last.value;
      if diff < 60000 {
        var n := diff / 1000;
        assert n * 1000 <= diff < n * 1000 + 1000;
        assert diff >= 0 ==> 0 <= n < 60;
        assert FormatLastUpdate(last, now, localeTime) == IntToString(n) + "s ago";
      } else if diff < 3600000 {
        var n := diff / 60000;
        assert n * 60000 <= diff < n * 60000 + 60000;
        assert 1 <= n < 60;
        assert FormatLastUpdate(last, now, localeTime) == IntToString(n) + "m ago";
      }
    }
  }

  /** The tooltip's symbol tags: the first five symbols, then "+k more" for the rest. */
  function SymbolTags(symbols: seq<string>): (r: (seq<string>, Option<string>))
    ensures |r.0| <= MaxTags && r.0 <= symbols
    ensures r.1.None? <==> |symbols| <= MaxTags
  {
    if |symbols| <= MaxTags then (symbols, None)
    else (symbols[..MaxTags], Some("+" + NatToString(|symbols| - MaxTags) + " more"))
  }

  /** The tags are a prefix of at most five symbols, and the overflow count makes up the rest exactly. */
  lemma SymbolTagsSpec(symbols: seq<string>)
    ensures var (tags, more) := SymbolTags(symbols);
      && |tags| <= MaxTags && tags <= symbols
      && (more.None? <==> |symbols| <= MaxTags)
      && (more.None? ==> tags == symbols)
      && (more.Some? ==> exists k: nat :: k >= 1 && |tags| + k == |symbols| && more.value == "+" + NatToString(k) + " more")
  {
    if |symbols| > MaxTags {
      var k: nat := |symbols| - MaxTags;
      assert |symbols[..MaxTags]| + k == |symbols|;
    }
  }

  /** The component's own copy of the service's state. */
  class ConnectionStatusView {
    var connectionState: ConnState
    var isOnline: bool
    var lastUpdateTime: Option<int>
    var subscribedSymbols: seq<string>
    var reconnectAttempts: nat

    /** The initial render, before the effect runs. */
    constructor (navigatorOnline: bool)
      ensures connectionState == Disconnected && isOnline == navigatorOnline
      ensures lastUpdateTime == None && subscribedSymbols == [] && reconnectAttempts == 0
    {
      connectionState := Disconnected;
      isOnline := navigatorOnline;
      lastUpdateTime := None;
      subscribedSymbols := [];
      reconnectAttempts := 0;
    }

    /** The end of the mount effect: copies the service's state. */
    method Mount(snapshot: Snapshot)
      modifies this
      ensures connectionState == snapshot.state && isOnline == snapshot.isOnline
      ensures lastUpdateTime == snapshot.lastUpdateTime && subscribedSymbols == snapshot.subscribedSymbols
      ensures reconnectAttempts == snapshot.reconnectAttempts
    {
      connectionState := snapshot.state;
      isOnline := snapshot.isOnline;
      lastUpdateTime := snapshot.lastUpdateTime;
      subscribedSymbols := snapshot.subscribedSymbols;
      reconnectAttempts := snapshot.reconnectAttempts;
    }

    /** The `connectionStateChanged` handler: a truthy attempt is shown; otherwise a connected state clears the count. */
    method OnConnectionStateChanged(e: Event)
      requires e.StateChanged?
      modifies this`connectionState, this`reconnectAttempts
      ensures connectionState == e.state
      ensures e.attempt.Some? && e.attempt.value != 0 ==> reconnectAttempts == e.attempt.value
      ensures !(e.attempt.Some? && e.attempt.value != 0) && e.state == Connected ==> reconnectAttempts == 0
      ensures !(e.attempt.Some? && e.attempt.value != 0) && e.state != Connected ==>
        reconnectAttempts == old(reconnectAttempts)
    {
      connectionState := e.state;
      if e.attempt.Some? && e.attempt.value != 0 {
        reconnectAttempts := e.attempt.value;
      } else if e.state == Connected {
        reconnectAttempts := 0;
      }
    }

    method OnNetworkStateChanged(e: Event)
      requires e.NetworkStateChanged?
      modifies this`isOnline
      ensures isOnline == e.isOnline
    {
      isOnline := e.isOnline;
    }

    method OnPriceUpdateCompleted(e: Event)
      requires e.PriceUpdateCompleted?
      modifies this`lastUpdateTime
      ensures lastUpdateTime == Some(e.timestamp)
    {
      lastUpdateTime := Some(e.timestamp);
    }

    /** The `symbolSubscribed` and `symbolUnsubscribed` handlers: re-read the service's symbols. */
    method OnSymbolsChanged(snapshot: Snapshot)
      modifies this`subscribedSymbols
      ensures subscribedSymbols == snapshot.subscribedSymbols
    {
      subscribedSymbols := snapshot.subscribedSymbols;
    }

    function Text(): (r: string)
      reads this
      ensures !isOnline ==> r == "Offline"
      ensures isOnline && connectionState == Connected ==> r == "Live"
    {
      StatusText(isOnline, connectionState, reconnectAttempts)
    }

    /** `handleReconnect()`: asks the service to connect only when shown disconnected and online. */
    method HandleReconnect(service: RealTimeDataService) returns (asked: bool)
      requires service.Valid()
      modifies service`state, service`probes, service`log, service`deliveries, service`audience
      ensures service.Valid()
      ensures asked <==> connectionState == Disconnected && isOnline
      ensures !asked ==> service.state == old(service.state) && service.log == old(service.log)
      ensures asked && (old(service.state) == Disconnected || old(service.state) == Reconnecting) ==>
        service.state == Connecting && service.log == old(service.log) + [ConnectingEvent]
      ensures asked && (old(service.state) == Connected || old(service.state) == Connecting) ==>
        service.state == old(service.state) && service.log == old(service.log)
      ensures service.probes == old(service.probes) +
        (if asked && (old(service.state) == Disconnected || old(service.state) == Reconnecting) then 1 else 0)
      ensures service.EmittedTo(service.listeners)
    {
      asked := connectionState == Disconnected && isOnline;
      if asked {
        var _ := service.Connect();
      }
    }
  }

  /**
   * After the service announces reconnection attempt n, an online view
   * reads "Reconnecting... (n/5)".
   */
  method ShowsReconnectAttempt(n: nat) returns (text: string)
    requires 1 <= n <= MaxReconnectAttempts
    ensures text == ReconnectingPrefix + NatToString(n) + ReconnectingSuffix
  {
    var view := new ConnectionStatusView(true);
    view.OnConnectionStateChanged(ReconnectingEvent(n));
    text := view.Text();
  }
}
