/** The live-quote client: one streaming connection per client, a
    reconnect-attempt counter with a ceiling, capped exponential backoff
    between reconnects, and a per-symbol map of the latest quote.

    The transport is abstract. Every socket the client creates is an index
    into `sockets`, which records its ready state; the transport's events
    (open, message, error, close) and the firing of a reconnect timer are
    methods whose preconditions say which events the transport can deliver
    in which state. Parsing an inbound message is an input: `None` stands
    for a payload that fails to parse. */
module LiveQuotes {
  import opened Wrappers
  import opened Records

  const MaxReconnectAttempts: nat := 5
  const BaseDelayMs: nat := 1000
  const MaxDelayMs: nat := 30000

  function Pow2(n: nat): (p: nat)
    ensures p >= 1
  {
    if n == 0 then 1 else 2 * Pow2(n - 1)
  }

  /** The delay before reconnect attempt `n`: `1000 * 2^n` milliseconds,
      capped at 30 seconds. */
  function BackoffDelay(n: nat): (d: nat)
    ensures BaseDelayMs <= d <= MaxDelayMs
  {
    var raw := BaseDelayMs * Pow2(n);
    if raw < MaxDelayMs then raw else MaxDelayMs
  }

  lemma {:induction false} Pow2Monotone(n: nat, m: nat)
    requires n <= m
    ensures Pow2(n) <= Pow2(m)
  {
    if n < m { Pow2Monotone(n, m - 1); }
  }

  /** Later attempts never wait less than earlier ones. */
  lemma BackoffMonotone(n: nat, m: nat)
    requires n <= m
    ensures BackoffDelay(n) <= BackoffDelay(m)
  {
    Pow2Monotone(n, m);
  }

  /** From the fifth attempt on, the delay is the 30-second cap. */
  lemma {:induction false} BackoffCappedFromFive(n: nat)
    requires n >= 5
    ensures BackoffDelay(n) == MaxDelayMs
  {
    Pow2Monotone(5, n);
  }

  /** Below the cap, each attempt waits twice as long as the previous one. */
  lemma BackoffDoubles(n: nat)
    ensures BackoffDelay(n + 1) == if 2 * BackoffDelay(n) < MaxDelayMs then 2 * BackoffDelay(n) else MaxDelayMs
  {
  }

  /** The five delays the counter can reach, attempts 1 to 5. */
  lemma BackoffSchedule()
    ensures [BackoffDelay(1), BackoffDelay(2), BackoffDelay(3), BackoffDelay(4), BackoffDelay(5)]
         == [2000, 4000, 8000, 16000, 30000]
  {
  }

  /** The quote map after a parsed message `q`: the entry for its symbol is
      replaced, every other entry is kept, and the map grows by at most one. */
  function Recorded(quotes: map<string, StockUpdate>, q: StockUpdate): (r: map<string, StockUpdate>)
    ensures q.symbol in r && r[q.symbol] == q
    ensures forall s :: s != q.symbol ==> (s in r <==> s in quotes)
    ensures forall s :: s != q.symbol && s in quotes ==> r[s] == quotes[s]
    ensures |r| == if q.symbol in quotes then |quotes| else |quotes| + 1
  {
    quotes[q.symbol := q]
  }

  /** Two messages for the same symbol leave only the later one. */
  lemma LatestMessageWins(quotes: map<string, StockUpdate>, q1: StockUpdate, q2: StockUpdate)
    requires q1.symbol == q2.symbol
    ensures Recorded(Recorded(quotes, q1), q2) == Recorded(quotes, q2)
  {
  }

  datatype ReadyState = Connecting | Open | Closing | Closed

  datatype Action = SubscribeAction | UnsubscribeAction

  /** An outbound control message `{action, symbols}`. */
  datatype Control = Control(action: Action, symbols: seq<string>)

  /** A control message as sent on the socket with the given index. */
  datatype Frame = Frame(socket: nat, message: Control)

  datatype ClientError =
    | SocketError     // the transport reported an error event
    | ConnectFailed   // creating the socket threw

  /** The ready states after `close()` is called on socket `s`: a socket
      that is connecting or open starts closing; otherwise nothing happens. */
  function CloseRequested(sockets: seq<ReadyState>, s: nat): (r: seq<ReadyState>)
    requires s < |sockets|
    ensures |r| == |sockets|
    ensures r[s] == if sockets[s] in {Connecting, Open} then Closing else sockets[s]
    ensures forall k :: 0 <= k < |r| && k != s ==> r[k] == sockets[k]
  {
    if sockets[s] in {Connecting, Open} then sockets[s := Closing] else sockets
  }

  /** The sockets the transport still treats as live. */
  function LiveSockets(sockets: seq<ReadyState>): set<nat> {
    set k: nat | k < |sockets| && sockets[k] in {Connecting, Open}
  }

  class QuoteClient {
    const symbols: seq<string>
    const enabled: bool
    var quotes: map<string, StockUpdate>
    var connected: bool
    var error: Option<ClientError>
    /** The socket reference: the index of the current socket, if any. */
    var current: Option<nat>
    /** Every socket ever created, by creation order, with its ready state. */
    var sockets: seq<ReadyState>
    /** Every control message sent, in order. */
    var sent: seq<Frame>
    var attempts: nat
    /** Pending reconnect timers: timer id to delay in milliseconds. */
    var timers: map<nat, nat>
    /** The timer slot: the id of the last timer scheduled. */
    var timerSlot: Option<nat>
    var nextTimer: nat

    ghost predicate Valid()
      reads this
    {
      && attempts <= MaxReconnectAttempts
      && (current.Some? ==> current.value < |sockets|)
      && (forall f :: f in sent ==> f.socket < |sockets|)
      && (forall t :: t in timers ==> t < nextTimer && 2000 <= timers[t] <= MaxDelayMs)
      && (timerSlot.Some? ==> timerSlot.value < nextTimer)
    }

    /** At most one socket is live, and it is the referenced one. */
    ghost predicate AtMostOneLive()
      reads this
    {
      forall k :: 0 <= k < |sockets| && sockets[k] in {Connecting, Open} ==> current == Some(k)
    }

    /** The hook's initial state: no socket, no quotes, not connected. */
    constructor (symbols: seq<string>, enabled: bool)
      ensures Valid()
      ensures this.symbols == symbols && this.enabled == enabled
      ensures quotes == map[] && !connected && error == None
      ensures current == None && sockets == [] && sent == []
      ensures attempts == 0 && timers == map[] && timerSlot == None && nextTimer == 0
      ensures AtMostOneLive()
    {
      this.symbols := symbols;
      this.enabled := enabled;
      quotes := map[];
      connected := false;
      error := None;
      current := None;
      sockets := [];
      sent := [];
      attempts := 0;
      timers := map[];
      timerSlot := None;
      nextTimer := 0;
    }

    /** `connect`: nothing happens when the client is disabled or has no
        symbols. Otherwise the current socket, if any, is asked to close and
        a new socket is created and becomes the current one. `created` is
        false when creating the socket throws: the error is recorded and the
        reference still names the old socket. */
    method Connect(created: bool)
      requires Valid()
      modifies this
      ensures Valid()
      ensures old(AtMostOneLive()) ==> AtMostOneLive()
      ensures !enabled || symbols == [] ==>
        sockets == old(sockets) && current == old(current) && error == old(error)
      ensures enabled && symbols != [] ==>
        var closed := if old(current).Some? then CloseRequested(old(sockets), old(current).value) else old(sockets);
        && sockets == closed + (if created then [Connecting] else [])
        && current == (if created then Some(|old(sockets)|) else old(current))
        && error == (if created then old(error) else Some(ConnectFailed))
      ensures quotes == old(quotes) && connected == old(connected) && sent == old(sent)
      ensures attempts == old(attempts) && timers == old(timers)
      ensures timerSlot == old(timerSlot) && nextTimer == old(nextTimer)
    {
      if !enabled || symbols == [] {
        return;
      }
      if current.Some? {
        sockets := CloseRequested(sockets, current.value);
      }
      if created {
        current := Some(|sockets|);
        sockets := sockets + [Connecting];
      } else {
        error := Some(ConnectFailed);
      }
    }

    /** The open event of socket `s`: connected, error cleared, attempts
        reset, and one subscribe message for the full symbol list sent on
        that socket. */
    method OnOpen(s: nat)
      requires Valid() && s < |sockets| && sockets[s] == Connecting
      modifies this
      ensures Valid()
      ensures old(AtMostOneLive()) ==> AtMostOneLive()
      ensures sockets == old(sockets)[s := Open]
      ensures connected && error == None && attempts == 0
      ensures sent == old(sent) + [Frame(s, Control(SubscribeAction, symbols))]
      ensures quotes == old(quotes) && current == old(current)
      ensures timers == old(timers) && timerSlot == old(timerSlot) && nextTimer == old(nextTimer)
    {
      sockets := sockets[s := Open];
      connected := true;
      error := None;
      attempts := 0;
      sent := sent + [Frame(s, Control(SubscribeAction, symbols))];
    }

    /** A message event on socket `s`, already parsed. A parsed quote
        replaces its symbol's entry; a payload that fails to parse changes
        nothing. */
    method OnMessage(s: nat, parsed: Option<StockUpdate>)
      requires Valid() && s < |sockets| && sockets[s] == Open
      modifies this
      ensures Valid()
      ensures old(AtMostOneLive()) ==> AtMostOneLive()
      ensures quotes == if parsed.Some? then Recorded(old(quotes), parsed.value) else old(quotes)
      ensures connected == old(connected) && error == old(error) && attempts == old(attempts)
      ensures current == old(current) && sockets == old(sockets) && sent == old(sent)
      ensures timers == old(timers) && timerSlot == old(timerSlot) && nextTimer == old(nextTimer)
    {
      if parsed.Some? {
        quotes := Recorded(quotes, parsed.value);
      }
    }

    /** An error event on socket `s`: only the error is recorded; the close
        event that follows does the rest. */
    method OnError(s: nat)
      requires Valid() && s < |sockets| && sockets[s] != Closed
      modifies this`error
      ensures error == Some(SocketError)
    {
      error := Some(SocketError);
    }

    /** The close event of socket `s`, exactly as the handler is written: it
        marks the client disconnected and clears the socket reference
        whichever socket closed; then, when enabled and below the ceiling,
        it counts one more attempt and schedules a reconnect after
        `BackoffDelay(attempts)`. At the ceiling nothing is scheduled. */
    method OnClose(s: nat)
      requires Valid() && s < |sockets| && sockets[s] != Closed
      modifies this
      ensures Valid()
      ensures sockets == old(sockets)[s := Closed]
      ensures !connected && current == None
      ensures var retry := enabled && old(attempts) < MaxReconnectAttempts;
        && attempts == (if retry then old(attempts) + 1 else old(attempts))
        && timers == (if retry then old(timers)[old(nextTimer) := BackoffDelay(attempts)] else old(timers))
        && timerSlot == (if retry then Some(old(nextTimer)) else old(timerSlot))
        && nextTimer == (if retry then old(nextTimer) + 1 else old(nextTimer))
      ensures quotes == old(quotes) && error == old(error) && sent == old(sent)
    {
      sockets := sockets[s := Closed];
      connected := false;
      current := None;
      if enabled && attempts < MaxReconnectAttempts {
        attempts := attempts + 1;
        BackoffMonotone(1, attempts);
        timers := timers[nextTimer := BackoffDelay(attempts)];
        timerSlot := Some(nextTimer);
        nextTimer := nextTimer + 1;
      }
    }

    /** The close handler as evidently intended: a close event of a socket
        that is no longer the current one (because `disconnect` dropped it or
        a later `connect` replaced it) only records that the socket closed;
        it neither clears the reference nor schedules a reconnect. */
    method OnCloseCurrentOnly(s: nat)
      requires Valid() && s < |sockets| && sockets[s] != Closed
      modifies this
      ensures Valid()
      ensures old(AtMostOneLive()) ==> AtMostOneLive()
      ensures sockets == old(sockets)[s := Closed]
      ensures old(current) != Some(s) ==>
        && connected == old(connected) && current == old(current)
        && attempts == old(attempts) && timers == old(timers)
        && timerSlot == old(timerSlot) && nextTimer == old(nextTimer)
      ensures old(current) == Some(s) ==>
        var retry := enabled && old(attempts) < MaxReconnectAttempts;
        && !connected && current == None
        && attempts == (if retry then old(attempts) + 1 else old(attempts))
        && timers == (if retry then old(timers)[old(nextTimer) := BackoffDelay(attempts)] else old(timers))
        && timerSlot == (if retry then Some(old(nextTimer)) else old(timerSlot))
        && nextTimer == (if retry then old(nextTimer) + 1 else old(nextTimer))
      ensures quotes == old(quotes) && error == old(error) && sent == old(sent)
    {
      if current != Some(s) {
        sockets := sockets[s := Closed];
        return;
      }
      OnClose(s);
    }

    /** A pending reconnect timer fires: it is no longer pending, and
        `connect` runs with the client's current options. */
    method OnTimer(t: nat, created: bool)
      requires Valid() && t in timers
      modifies this
      ensures Valid()
      ensures old(AtMostOneLive()) ==> AtMostOneLive()
      ensures timers == old(timers) - {t}
      ensures !enabled || symbols == [] ==>
        sockets == old(sockets) && current == old(current) && error == old(error)
      ensures enabled && symbols != [] ==>
        var closed := if old(current).Some? then CloseRequested(old(sockets), old(current).value) else old(sockets);
        && sockets == closed + (if created then [Connecting] else [])
        && current == (if created then Some(|old(sockets)|) else old(current))
        && error == (if created then old(error) else Some(ConnectFailed))
      ensures quotes == old(quotes) && connected == old(connected) && sent == old(sent)
      ensures attempts == old(attempts) && timerSlot == old(timerSlot) && nextTimer == old(nextTimer)
    {
      timers := timers - {t};
      Connect(created);
    }

    /** `disconnect`: cancels the timer in the slot, asks the current socket
        to close and drops the reference, and marks the client disconnected. */
    method Disconnect()
      requires Valid()
      modifies this
      ensures Valid()
      ensures old(AtMostOneLive()) ==> AtMostOneLive()
      ensures timers == if old(timerSlot).Some? then old(timers) - {old(timerSlot).value} else old(timers)
      ensures sockets == if old(current).Some? then CloseRequested(old(sockets), old(current).value) else old(sockets)
      ensures current == None && !connected
      ensures quotes == old(quotes) && error == old(error) && sent == old(sent)
      ensures attempts == old(attempts) && timerSlot == old(timerSlot) && nextTimer == old(nextTimer)
    {
      if timerSlot.Some? {
        timers := timers - {timerSlot.value};
      }
      if current.Some? {
        sockets := CloseRequested(sockets, current.value);
        current := None;
      }
      connected := false;
    }

    /** True when the current socket exists and is open. */
    predicate CurrentIsOpen()
      reads this
      requires Valid()
    {
      current.Some? && sockets[current.value] == Open
    }

    /** `subscribe`: sends `{subscribe, xs}` on the current socket when it
        is open; otherwise nothing happens. */
    method Subscribe(xs: seq<string>)
      requires Valid()
      modifies this`sent
      ensures Valid()
      ensures sent == if old(CurrentIsOpen()) then old(sent) + [Frame(current.value, Control(SubscribeAction, xs))] else old(sent)
    {
      if CurrentIsOpen() {
        sent := sent + [Frame(current.value, Control(SubscribeAction, xs))];
      }
    }

    /** `unsubscribe`: sends `{unsubscribe, xs}` on the current socket when
        it is open; otherwise nothing happens. */
    method Unsubscribe(xs: seq<string>)
      requires Valid()
      modifies this`sent
      ensures Valid()
      ensures sent == if old(CurrentIsOpen()) then old(sent) + [Frame(current.value, Control(UnsubscribeAction, xs))] else old(sent)
    {
      if CurrentIsOpen() {
        sent := sent + [Frame(current.value, Control(UnsubscribeAction, xs))];
      }
    }

    /** The effect that runs when the symbol list changes to `xs`: when the
        client is connected and holds a socket, `{subscribe, xs}` is sent on
        it. Sending on an open socket delivers the message; sending on a
        socket still connecting throws (`threw`); a closing or closed socket
        discards it. */
    method ResubscribeOnChange(xs: seq<string>) returns (threw: bool)
      requires Valid()
      modifies this`sent
      ensures Valid()
      ensures threw <==> connected && current.Some? && sockets[current.value] == Connecting
      ensures sent == if connected && CurrentIsOpen() then old(sent) + [Frame(current.value, Control(SubscribeAction, xs))] else old(sent)
    {
      threw := false;
      if connected && current.Some? {
        match sockets[current.value]
        case Open =>
          sent := sent + [Frame(current.value, Control(SubscribeAction, xs))];
        case Connecting =>
          threw := true;
        case _ =>
      }
    }
  }

  /** Consecutive drops without an open in between: the reconnects are
      scheduled after 2, 4, 8, 16 and 30 seconds, and the sixth close
      schedules nothing. */
  method ReconnectSchedule() returns (delays: seq<nat>, sixthScheduled: bool)
    ensures delays == [2000, 4000, 8000, 16000, 30000]
    ensures !sixthScheduled
  {
    var c := new QuoteClient(["AAPL", "MSFT"], true);
    c.Connect(true);
    c.OnOpen(0);
    delays := [];
    var k := 0;
    while k < 5
      invariant 0 <= k <= 5
      invariant c.Valid() && c.enabled && c.symbols == ["AAPL", "MSFT"]
      invariant c.attempts == k && c.nextTimer == k && c.timers == map[]
      invariant |c.sockets| == k + 1 && c.current == Some(k) && c.sockets[k] != Closed
      invariant |delays| == k && forall j :: 0 <= j < k ==> delays[j] == BackoffDelay(j + 1)
      modifies c
    {
      c.OnCloseCurrentOnly(k);
      delays := delays + [c.timers[k]];
      c.OnTimer(k, true);
      k := k + 1;
    }
    BackoffSchedule();
    c.OnCloseCurrentOnly(5);
    sixthScheduled := c.timers != map[];
  }

  /** The close handler as written: a caller connects, the socket opens,
      the caller connects again, and the close event of the replaced socket
      then clears the reference to the new one and schedules a reconnect;
      when that timer fires a third socket is created while the second is
      still connecting, so two sockets are live at once. */
  method StaleCloseAsWritten() returns (second: ReadyState, third: ReadyState, referencedAfterStaleClose: bool)
    ensures second == Connecting && third == Connecting
    ensures !referencedAfterStaleClose
  {
    var c := new QuoteClient(["AAPL"], true);
    c.Connect(true);
    c.OnOpen(0);
    c.Connect(true);
    c.OnClose(0);
    referencedAfterStaleClose := c.current.Some?;
    assert 0 in c.timers;
    c.OnTimer(0, true);
    second, third := c.sockets[1], c.sockets[2];
  }

  /** The same sequence with the intended close handler: the close event of
      the replaced socket schedules nothing and the new socket stays
      referenced, the only live one. */
  method StaleCloseCurrentOnly() returns (scheduled: bool, referenced: Option<nat>)
    ensures !scheduled && referenced == Some(1)
  {
    var c := new QuoteClient(["AAPL"], true);
    c.Connect(true);
    c.OnOpen(0);
    c.Connect(true);
    c.OnCloseCurrentOnly(0);
    assert c.AtMostOneLive();
    scheduled := c.timers != map[];
    referenced := c.current;
  }
}
