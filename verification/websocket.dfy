/**
 * The mock device-connectivity service of `src/lib/websocket.ts`
 * (`MockWebSocketService` and its singleton `websocketService`).
 *
 * The service keeps an event registry (event name to an ordered handler list),
 * a `connected` flag, the handle of the one periodic telemetry timer and the
 * handle of the last reconnect timer. Its behaviour over time comes from host
 * timers; here they are an explicit table `pending` from timer id to `Timer`
 * (due time and callback) on a virtual `clock`, and `Step` plays the host: it
 * fires the earliest timer.
 *
 * Handlers are opaque identities. What the service hands to them is recorded
 * in two append-only logs: `emitted` holds every `emit` call and `delivered`
 * every handler invocation, in order.
 */
module WebSocket {
  import opened Wrappers
  import MockData

  /** An event name: the three the service emits, or any other name. */
  datatype Event = ConnectionEvent | DataEvent | CommandResponseEvent | OtherEvent(name: string)

  /** The names the service emits under, each of which has its own constructor. */
  const EmittedNames: set<string> := {"connection", "data", "commandResponse"}

  /** The properties every plain object inherits: looking one up finds a function or an object, never a handler list. */
  const InheritedNames: set<string> :=
    {"constructor", "hasOwnProperty", "isPrototypeOf", "propertyIsEnumerable", "toLocaleString",
     "toString", "valueOf", "__proto__", "__defineGetter__", "__defineSetter__",
     "__lookupGetter__", "__lookupSetter__"}

  /**
   * The names `on`, `off` and `emit` can be called with: the listener table is
   * a plain object, so for an inherited name the lookup is truthy but not an
   * array, and `push`, `filter` or `forEach` throws. `OtherEvent` does not
   * duplicate the three emitted names.
   */
  predicate ListenableEvent(e: Event) {
    e.OtherEvent? ==> e.name !in EmittedNames && e.name !in InheritedNames
  }

  /** Timer delays, in milliseconds. */
  const StartupDelay: int := 1500
  const ConnectDelay: int := 1000
  const ReconnectDelay: int := 2000
  const DataPeriod: int := 30000
  const CommandDelay: int := 500

  datatype Status = Connected | Disconnected | Reconnecting

  datatype Sample = Sample(temperature: real, turbidity: real, ph: real, timestamp: int)

  /** The three `Math.random()` draws one telemetry sample consumes. */
  datatype SampleDraws = SampleDraws(temperature: MockData.Draw, turbidity: MockData.Draw, ph: MockData.Draw)

  datatype CommandStatus = Success

  /** The payloads the service emits; `result` is the response's `status` field. */
  datatype Payload =
    | ConnectionChange(status: Status)
    | Data(sample: Sample)
    | CommandResponse(command: string, result: CommandStatus, message: string, timestamp: int)

  /** A callback, known only by its identity. */
  datatype Handler = Handler(id: nat)

  datatype Emission = Emission(event: Event, payload: Payload)

  datatype Delivery = Delivery(event: Event, handler: Handler, payload: Payload)

  /** What a timer does when it fires. */
  datatype Action =
    | CallConnect       // the constructor's and `reconnect`'s delayed `connect()`
    | Establish         // the delayed callback inside `connect()`
    | Tick              // one period of the telemetry interval
    | Respond(command: string)  // the delayed acknowledgement of `sendCommand`

  /** A pending timer: when it is due and what it does. Ids are the keys of the timer table. */
  datatype Timer = Timer(due: int, action: Action)

  /** True when `v` lies in the half-open range of `s` in the sensor table. */
  predicate InSensorRange(s: MockData.Sensor, v: real) {
    MockData.GetSensorConfig(s).min <= v < MockData.GetSensorConfig(s).max
  }

  /** One telemetry sample at time `now`; every channel lies in its sensor's range. */
  function MakeSample(d: SampleDraws, now: int): (s: Sample)
    ensures InSensorRange(MockData.Temperature, s.temperature)
    ensures InSensorRange(MockData.Turbidity, s.turbidity)
    ensures InSensorRange(MockData.Ph, s.ph)
    ensures s.timestamp == now
  {
    Sample(20.0 + d.temperature * 10.0, d.turbidity * 10.0, 6.5 + d.ph * 2.0, now)
  }

  /** The response text names the command, which can be read back from it. */
  function CommandMessage(command: string): (m: string)
    ensures |m| == |command| + 30
    ensures m[8..|m| - 22] == command
  {
    "Command " + command + " executed successfully"
  }

  /** The invocations one `emit(e, d)` makes: each handler once, in list order, with the same payload. */
  function Deliveries(e: Event, hs: seq<Handler>, d: Payload): (r: seq<Delivery>)
    ensures |r| == |hs|
    ensures forall i :: 0 <= i < |r| ==> r[i] == Delivery(e, hs[i], d)
  {
    if hs == [] then [] else [Delivery(e, hs[0], d)] + Deliveries(e, hs[1..], d)
  }

  /** `list.filter(listener => listener !== h)`. */
  function Without(hs: seq<Handler>, h: Handler): (r: seq<Handler>)
    ensures forall x :: x in r <==> x in hs && x != h
    ensures |r| <= |hs|
  {
    if hs == [] then []
    else (if hs[0] == h then [] else [hs[0]]) + Without(hs[1..], h)
  }

  /** Filtering distributes over concatenation: the survivors keep their relative order. */
  lemma {:induction false} WithoutConcat(s: seq<Handler>, t: seq<Handler>, h: Handler)
    ensures Without(s + t, h) == Without(s, h) + Without(t, h)
  {
    if s != [] {
      assert (s + t)[0] == s[0];
      assert (s + t)[1..] == s[1..] + t;
      WithoutConcat(s[1..], t, h);
      var head := if s[0] == h then [] else [s[0]];
      calc {
        Without(s + t, h);
        head + Without(s[1..] + t, h);
        head + (Without(s[1..], h) + Without(t, h));
        (head + Without(s[1..], h)) + Without(t, h);
        Without(s, h) + Without(t, h);
      }
    } else {
      assert s + t == t;
    }
  }

  /** Exactly the registrations of `h` are dropped; every other handler keeps its count. */
  lemma {:induction false} WithoutCounts(s: seq<Handler>, h: Handler)
    ensures multiset(Without(s, h)) == multiset(s)[h := 0]
  {
    if s != [] {
      WithoutCounts(s[1..], h);
      assert s == [s[0]] + s[1..];
      assert multiset(s) == multiset{s[0]} + multiset(s[1..]);
      if s[0] == h {
        assert Without(s, h) == Without(s[1..], h);
      } else {
        assert Without(s, h) == [s[0]] + Without(s[1..], h);
        assert multiset(Without(s, h)) == multiset{s[0]} + multiset(Without(s[1..], h));
      }
    }
  }

  /** Removing a handler twice is the same as removing it once. */
  lemma {:induction false} WithoutIdempotent(s: seq<Handler>, h: Handler)
    ensures Without(Without(s, h), h) == Without(s, h)
  {
    if s != [] {
      WithoutIdempotent(s[1..], h);
      var w := Without(s, h);
      if s[0] != h {
        assert w == [s[0]] + Without(s[1..], h);
        assert w != [] && w[0] == s[0];
        assert w[1..] == Without(s[1..], h);
        assert Without(w, h) == [s[0]] + Without(w[1..], h);
      } else {
        assert w == Without(s[1..], h);
      }
    }
  }

  /** Removing a handler that is not registered changes nothing. */
  lemma {:induction false} WithoutAbsent(s: seq<Handler>, h: Handler)
    requires h !in s
    ensures Without(s, h) == s
  {
    if s != [] {
      WithoutAbsent(s[1..], h);
      assert s == [s[0]] + s[1..];
    }
  }


  /** Registering a new handler and then removing it restores the list. */
  lemma OffUndoesOn(hs: seq<Handler>, h: Handler)
    requires h !in hs
    ensures Without(hs + [h], h) == hs
  {
    WithoutConcat(hs, [h], h);
    WithoutAbsent(hs, h);
    assert Without([h], h) == [];
  }

  /** The table after the telemetry interval, if any, is cleared. */
  function StopInterval(ps: map<nat, Timer>, interval: Option<nat>): map<nat, Timer> {
    if interval.Some? then ps - {interval.value} else ps
  }

  /**
   * Timer `id` is the one the host fires next: nothing is due earlier, and among
   * timers due at the same time the one created first goes first.
   */
  predicate FiresFirst(ps: map<nat, Timer>, id: nat) {
    && id in ps
    && forall j :: j in ps ==> ps[id].due < ps[j].due || (ps[id].due == ps[j].due && id <= j)
  }

  /** At most one timer fires first. */
  lemma FiresFirstUnique(ps: map<nat, Timer>, i: nat, j: nat)
    requires FiresFirst(ps, i) && FiresFirst(ps, j)
    ensures i == j
  {
    assert ps[i].due <= ps[j].due && ps[j].due <= ps[i].due;
  }

  /** The timer among ids below `n` that fires first, if any is pending. */
  function EarliestBelow(ps: map<nat, Timer>, n: nat): (r: Option<nat>)
    ensures r.None? <==> forall j :: j in ps ==> n <= j
    ensures r.Some? ==> r.value < n && r.value in ps
    ensures r.Some? ==> forall j :: j in ps && j < n ==>
                          ps[r.value].due < ps[j].due || (ps[r.value].due == ps[j].due && r.value <= j)
  {
    if n == 0 then None
    else
      var r := EarliestBelow(ps, n - 1);
      if n - 1 !in ps then r
      else if r.None? || ps[n - 1].due < ps[r.value].due then Some(n - 1)
      else r
  }

  /** The connection statuses announced so far, in order. */
  function Announced(em: seq<Emission>): seq<Status> {
    if em == [] then []
    else
      var last := em[|em| - 1];
      Announced(em[..|em| - 1]) + (if last.payload.ConnectionChange? then [last.payload.status] else [])
  }

  /** The status of the latest connection-change emission, if any. */
  function LastStatus(em: seq<Emission>): Option<Status> {
    if em == [] then None
    else if em[|em| - 1].payload.ConnectionChange? then Some(em[|em| - 1].payload.status)
    else LastStatus(em[..|em| - 1])
  }

  /** One more emission adds a status exactly when it is a connection change. */
  lemma AnnouncedAppend(em: seq<Emission>, x: Emission)
    ensures Announced(em + [x]) == Announced(em) + (if x.payload.ConnectionChange? then [x.payload.status] else [])
    ensures LastStatus(em + [x]) == if x.payload.ConnectionChange? then Some(x.payload.status) else LastStatus(em)
  {
    assert (em + [x])[..|em|] == em;
  }

  /** The latest status is the last one announced. */
  lemma {:induction false} LastStatusIsLastAnnounced(em: seq<Emission>)
    ensures LastStatus(em) == if Announced(em) == [] then None else Some(Announced(em)[|Announced(em)| - 1])
  {
    if em != [] {
      LastStatusIsLastAnnounced(em[..|em| - 1]);
    }
  }

  /** The handler list of `e` in the registry `ls`, empty when `e` has none. */
  function HandlersOf(ls: map<Event, seq<Handler>>, e: Event): seq<Handler> {
    if e in ls then ls[e] else []
  }

  /** What `emit(e, d)` hands out when the registry is `ls`: one delivery per registered handler. */
  function Dispatch(ls: map<Event, seq<Handler>>, e: Event, d: Payload): seq<Delivery> {
    Deliveries(e, HandlersOf(ls, e), d)
  }

  class MockWebSocketService {
    var listeners: map<Event, seq<Handler>>
    var connected: bool
    var reconnectTimeout: Option<nat>
    var mockDataInterval: Option<nat>

    // The host's timers: the current time, the timers not yet fired, the next timer id.
    var clock: int
    var pending: map<nat, Timer>
    var nextTimerId: nat

    // What the service has handed out: every `emit` call, and every handler invocation.
    var emitted: seq<Emission>
    var delivered: seq<Delivery>

    /** No timer is due in the past, and every pending id was handed out. */
    ghost predicate TimersValid()
      reads this`clock, this`pending, this`nextTimerId
    {
      forall id :: id in pending ==> clock <= pending[id].due && id < nextTimerId
    }

    /**
     * The service invariant: the only periodic timer is the one `mockDataInterval`
     * names; it exists exactly while `connected`; and `connected` agrees with the
     * last status announced on the "connection" event.
     */
    ghost predicate Valid()
      reads this`clock, this`pending, this`nextTimerId, this`mockDataInterval, this`connected, this`emitted
    {
      && TimersValid()
      && (forall id :: id in pending && pending[id].action == Tick ==> mockDataInterval == Some(id))
      && (connected <==> mockDataInterval.Some?)
      && (mockDataInterval.Some? ==> mockDataInterval.value in pending && pending[mockDataInterval.value].action == Tick)
      && (connected <==> LastStatus(emitted) == Some(Connected))
    }

    /** A fresh service: no listeners, not connected, one `connect` queued after 1500 ms. */
    constructor (now: int)
      ensures Valid()
      ensures listeners == map[] && !connected
      ensures reconnectTimeout == None && mockDataInterval == None
      ensures clock == now && pending == map[0 := Timer(now + StartupDelay, CallConnect)] && nextTimerId == 1
      ensures emitted == [] && delivered == []
    {
      listeners := map[];
      connected := false;
      reconnectTimeout := None;
      mockDataInterval := None;
      clock := now;
      pending := map[0 := Timer(now + StartupDelay, CallConnect)];
      nextTimerId := 1;
      emitted := [];
      delivered := [];
    }

    /** `setTimeout`/`setInterval`: queues a timer `delay` ms from now under a fresh id. */
    method SetTimer(action: Action, delay: nat) returns (id: nat)
      requires TimersValid()
      modifies this`pending, this`nextTimerId
      ensures TimersValid()
      ensures id == old(nextTimerId) && id !in old(pending) && nextTimerId == id + 1
      ensures pending == old(pending)[id := Timer(clock + delay, action)]
    {
      id := nextTimerId;
      pending := pending[id := Timer(clock + delay, action)];
      nextTimerId := nextTimerId + 1;
    }

    /** `connect()`: queues the link-establishment callback, 1000 ms from now. */
    method Connect()
      requires Valid()
      modifies this`pending, this`nextTimerId
      ensures Valid()
      ensures pending == old(pending)[old(nextTimerId) := Timer(clock + ConnectDelay, Establish)]
      ensures nextTimerId == old(nextTimerId) + 1
    {
      var _ := SetTimer(Establish, ConnectDelay);
    }

    /** `disconnect()`: clears the interval, drops the flag, announces "disconnected" once. */
    method Disconnect()
      requires Valid()
      modifies this`pending, this`mockDataInterval, this`connected, this`emitted, this`delivered
      ensures Valid()
      ensures !connected && mockDataInterval == None
      ensures forall id :: id in pending ==> pending[id].action != Tick
      ensures pending == StopInterval(old(pending), old(mockDataInterval))
      ensures emitted == old(emitted) + [Emission(ConnectionEvent, ConnectionChange(Disconnected))]
      ensures delivered == old(delivered) + Dispatch(listeners, ConnectionEvent, ConnectionChange(Disconnected))
    {
      if mockDataInterval.Some? {
        pending := pending - {mockDataInterval.value};
        mockDataInterval := None;
      }
      connected := false;
      Emit(ConnectionEvent, ConnectionChange(Disconnected));
    }

    /** `reconnect()`: disconnects, announces "reconnecting", and queues `connect` 2000 ms from now. */
    method Reconnect()
      requires Valid()
      modifies this`pending, this`mockDataInterval, this`connected, this`emitted, this`delivered
      modifies this`nextTimerId, this`reconnectTimeout
      ensures Valid()
      ensures !connected && mockDataInterval == None
      ensures reconnectTimeout == Some(old(nextTimerId)) && nextTimerId == old(nextTimerId) + 1
      ensures pending == StopInterval(old(pending), old(mockDataInterval))
                           [old(nextTimerId) := Timer(clock + ReconnectDelay, CallConnect)]
      ensures emitted == old(emitted) + [Emission(ConnectionEvent, ConnectionChange(Disconnected))]
                                         + [Emission(ConnectionEvent, ConnectionChange(Reconnecting))]
      ensures delivered == old(delivered) + Dispatch(listeners, ConnectionEvent, ConnectionChange(Disconnected))
                                          + Dispatch(listeners, ConnectionEvent, ConnectionChange(Reconnecting))
    {
      Disconnect();
      ghost var stopped := pending;
      Emit(ConnectionEvent, ConnectionChange(Reconnecting));
      assert pending == stopped;
      var id := SetTimer(CallConnect, ReconnectDelay);
      reconnectTimeout := Some(id);
    }

    /** `isConnected()`: the flag, which is true exactly when the last announced status is "connected". */
    function IsConnected(): (c: bool)
      reads this`clock, this`pending, this`nextTimerId, this`mockDataInterval, this`connected, this`emitted
      requires Valid()
      ensures c <==> LastStatus(emitted) == Some(Connected)
    {
      connected
    }

    /** `on(e, h)`: appends `h` to the list of `e`, creating the list when absent. */
    method On(e: Event, h: Handler)
      requires ListenableEvent(e)
      requires Valid()
      modifies this`listeners
      ensures Valid()
      ensures listeners == old(listeners)[e := HandlersOf(old(listeners), e) + [h]]
    {
      if e !in listeners {
        listeners := listeners[e := []];
      }
      listeners := listeners[e := listeners[e] + [h]];
    }

    /** `off(e, h)`: replaces the list of `e` by the list without `h`; nothing for an unknown event. */
    method Off(e: Event, h: Handler)
      requires ListenableEvent(e)
      requires Valid()
      modifies this`listeners
      ensures Valid()
      ensures listeners == if e in old(listeners) then old(listeners)[e := Without(old(listeners)[e], h)]
                           else old(listeners)
    {
      if e !in listeners {
        return;
      }
      listeners := listeners[e := Without(listeners[e], h)];
    }

    /** `emit(e, d)`: calls every handler of `e`, in order, with `d`. */
    method Emit(e: Event, d: Payload)
      requires ListenableEvent(e)
      modifies this`emitted, this`delivered
      ensures emitted == old(emitted) + [Emission(e, d)]
      ensures delivered == old(delivered) + Dispatch(listeners, e, d)
      ensures LastStatus(emitted) == if d.ConnectionChange? then Some(d.status) else LastStatus(old(emitted))
    {
      AnnouncedAppend(emitted, Emission(e, d));
      emitted := emitted + [Emission(e, d)];
      if e !in listeners {
        return;
      }
      var callbacks := listeners[e];
      for i := 0 to |callbacks|
        invariant emitted == old(emitted) + [Emission(e, d)]
        invariant delivered == old(delivered) + Deliveries(e, callbacks[..i], d)
      {
        assert Deliveries(e, callbacks[..i + 1], d) == Deliveries(e, callbacks[..i], d) + [Delivery(e, callbacks[i], d)];
        delivered := delivered + [Delivery(e, callbacks[i], d)];
      }
      assert callbacks[..|callbacks|] == callbacks;
    }

    /** `startMockDataStream()`: replaces any interval by a fresh one and sends one sample at once. */
    method StartMockDataStream(draws: SampleDraws)
      requires TimersValid()
      requires forall id :: id in pending && pending[id].action == Tick ==> mockDataInterval == Some(id)
      modifies this`pending, this`nextTimerId, this`mockDataInterval, this`emitted, this`delivered
      ensures TimersValid()
      ensures mockDataInterval == Some(old(nextTimerId)) && nextTimerId == old(nextTimerId) + 1
      ensures pending == StopInterval(old(pending), old(mockDataInterval))
                           [old(nextTimerId) := Timer(clock + DataPeriod, Tick)]
      ensures emitted == old(emitted) + [Emission(DataEvent, Data(MakeSample(draws, clock)))]
      ensures delivered == old(delivered) + Dispatch(listeners, DataEvent, Data(MakeSample(draws, clock)))
      ensures LastStatus(emitted) == LastStatus(old(emitted))
    {
      if mockDataInterval.Some? {
        pending := pending - {mockDataInterval.value};
      }
      var id := SetTimer(Tick, DataPeriod);
      mockDataInterval := Some(id);
      var initialData := MakeSample(draws, clock);
      Emit(DataEvent, Data(initialData));
    }

    /** `sendCommand(command, params)`: rejected while disconnected; otherwise one response queued 500 ms from now. */
    method SendCommand(command: string)
      requires Valid()
      modifies this`pending, this`nextTimerId
      ensures Valid()
      ensures !connected ==> pending == old(pending) && nextTimerId == old(nextTimerId)
      ensures connected ==> pending == old(pending)[old(nextTimerId) := Timer(clock + CommandDelay, Respond(command))]
                            && nextTimerId == old(nextTimerId) + 1
    {
      if !connected {
        return;
      }
      var _ := SetTimer(Respond(command), CommandDelay);
    }

    /**
     * Time passes without a timer firing, up to at most the earliest due time:
     * a caller's `connect`, `disconnect`, `reconnect` or `sendCommand` can then
     * come at any moment between timer callbacks.
     */
    method AdvanceClock(t: int)
      requires Valid() && clock <= t
      requires forall id :: id in pending ==> t <= pending[id].due
      modifies this`clock
      ensures Valid() && clock == t
    {
      clock := t;
    }

    /**
     * The host fires the earliest pending timer at its due time and runs its
     * callback; `draws` feeds the sample a telemetry callback builds. With no
     * timer pending nothing happens. A fired timeout leaves the table; the
     * interval is requeued one period later under the same id.
     */
    method Step(draws: SampleDraws) returns (fired: Option<nat>)
      requires Valid()
      modifies this`clock, this`pending, this`nextTimerId, this`connected, this`mockDataInterval
      modifies this`emitted, this`delivered
      ensures Valid()
      ensures fired.None? <==> old(pending) == map[]
      ensures fired.None? ==>
                && clock == old(clock) && pending == old(pending) && nextTimerId == old(nextTimerId)
                && connected == old(connected) && mockDataInterval == old(mockDataInterval)
                && emitted == old(emitted) && delivered == old(delivered)
      ensures fired.Some? ==> FiresFirst(old(pending), fired.value) && clock == old(pending)[fired.value].due
      ensures fired.Some? && old(pending)[fired.value].action.CallConnect? ==>
                && pending == (old(pending) - {fired.value})[old(nextTimerId) := Timer(clock + ConnectDelay, Establish)]
                && nextTimerId == old(nextTimerId) + 1
                && connected == old(connected) && mockDataInterval == old(mockDataInterval)
                && emitted == old(emitted) && delivered == old(delivered)
      ensures fired.Some? && old(pending)[fired.value].action.Establish? ==>
                && connected && mockDataInterval == Some(old(nextTimerId))
                && nextTimerId == old(nextTimerId) + 1
                && pending == StopInterval(old(pending) - {fired.value}, old(mockDataInterval))
                                [old(nextTimerId) := Timer(clock + DataPeriod, Tick)]
                && emitted == old(emitted) + [Emission(ConnectionEvent, ConnectionChange(Connected))]
                                              + [Emission(DataEvent, Data(MakeSample(draws, clock)))]
                && delivered == old(delivered) + Dispatch(listeners, ConnectionEvent, ConnectionChange(Connected))
                                               + Dispatch(listeners, DataEvent, Data(MakeSample(draws, clock)))
      ensures fired.Some? && old(pending)[fired.value].action.Tick? ==>
                && connected && mockDataInterval == old(mockDataInterval) == Some(fired.value)
                && nextTimerId == old(nextTimerId)
                && pending == old(pending)[fired.value := Timer(clock + DataPeriod, Tick)]
                && emitted == old(emitted) + [Emission(DataEvent, Data(MakeSample(draws, clock)))]
                && delivered == old(delivered) + Dispatch(listeners, DataEvent, Data(MakeSample(draws, clock)))
      ensures fired.Some? && old(pending)[fired.value].action.Respond? ==>
                var command := old(pending)[fired.value].action.command;
                var response := CommandResponse(command, Success, CommandMessage(command), clock);
                && connected == old(connected) && mockDataInterval == old(mockDataInterval)
                && nextTimerId == old(nextTimerId)
                && pending == old(pending) - {fired.value}
                && emitted == old(emitted) + [Emission(CommandResponseEvent, response)]
                && delivered == old(delivered) + Dispatch(listeners, CommandResponseEvent, response)
    {
      if pending == map[] {
        return None;
      }
      var id, t := Pop();
      Fire(id, t, draws);
      fired := Some(id);
    }

    /** The state just after the host took timer `id`, which was `t`, off the table, before its callback runs. */
    ghost predicate ReadyToFire(id: nat, t: Timer)
      reads this`clock, this`pending, this`nextTimerId, this`mockDataInterval, this`connected, this`emitted
    {
      && TimersValid() && clock == t.due && id < nextTimerId && id !in pending
      && (!t.action.Tick? ==> Valid())
      && (t.action.Tick? ==>
            && mockDataInterval == Some(id) && connected
            && (forall j :: j in pending ==> pending[j].action != Tick)
            && LastStatus(emitted) == Some(Connected))
    }

    /** Takes the timer that fires first off the table and advances the clock to its due time. */
    method Pop() returns (id: nat, t: Timer)
      requires Valid() && pending != map[]
      modifies this`clock, this`pending
      ensures FiresFirst(old(pending), id) && t == old(pending)[id]
      ensures forall j :: FiresFirst(old(pending), j) ==> j == id
      ensures pending == old(pending) - {id}
      ensures ReadyToFire(id, t)
    {
      var r := EarliestBelow(pending, nextTimerId);
      id := r.value;
      t := pending[id];
      forall j | FiresFirst(pending, j)
        ensures j == id
      {
        FiresFirstUnique(pending, id, j);
      }
      clock := t.due;
      pending := pending - {id};
    }

    /** Runs the callback of timer `id`, just taken off the table. */
    method Fire(id: nat, t: Timer, draws: SampleDraws)
      requires ReadyToFire(id, t)
      modifies this`pending, this`nextTimerId, this`connected, this`mockDataInterval
      modifies this`emitted, this`delivered
      ensures Valid()
      ensures t.action.CallConnect? ==>
                && pending == old(pending)[old(nextTimerId) := Timer(clock + ConnectDelay, Establish)]
                && nextTimerId == old(nextTimerId) + 1
                && connected == old(connected) && mockDataInterval == old(mockDataInterval)
                && emitted == old(emitted) && delivered == old(delivered)
      ensures t.action.Establish? ==>
                && connected && mockDataInterval == Some(old(nextTimerId))
                && nextTimerId == old(nextTimerId) + 1
                && pending == StopInterval(old(pending), old(mockDataInterval))
                                [old(nextTimerId) := Timer(clock + DataPeriod, Tick)]
                && emitted == old(emitted) + [Emission(ConnectionEvent, ConnectionChange(Connected))]
                                              + [Emission(DataEvent, Data(MakeSample(draws, clock)))]
                && delivered == old(delivered) + Dispatch(listeners, ConnectionEvent, ConnectionChange(Connected))
                                               + Dispatch(listeners, DataEvent, Data(MakeSample(draws, clock)))
      ensures t.action.Tick? ==>
                && connected && mockDataInterval == old(mockDataInterval) == Some(id)
                && nextTimerId == old(nextTimerId)
                && pending == old(pending)[id := Timer(clock + DataPeriod, Tick)]
                && emitted == old(emitted) + [Emission(DataEvent, Data(MakeSample(draws, clock)))]
                && delivered == old(delivered) + Dispatch(listeners, DataEvent, Data(MakeSample(draws, clock)))
      ensures t.action.Respond? ==>
                var response := CommandResponse(t.action.command, Success, CommandMessage(t.action.command), clock);
                && connected == old(connected) && mockDataInterval == old(mockDataInterval)
                && nextTimerId == old(nextTimerId) && pending == old(pending)
                && emitted == old(emitted) + [Emission(CommandResponseEvent, response)]
                && delivered == old(delivered) + Dispatch(listeners, CommandResponseEvent, response)
    {
      match t.action {
        case CallConnect =>
          Connect();
        case Establish =>
          FireEstablish(draws);
        case Tick =>
          FireInterval(id, draws);
        case Respond(command) =>
          FireResponse(command);
      }
    }

    /** The callback `connect()` queued: the link is up, announced, and the telemetry stream starts. */
    method FireEstablish(draws: SampleDraws)
      requires Valid()
      modifies this`connected, this`pending, this`nextTimerId, this`mockDataInterval, this`emitted, this`delivered
      ensures Valid()
      ensures connected && mockDataInterval == Some(old(nextTimerId)) && nextTimerId == old(nextTimerId) + 1
      ensures pending == StopInterval(old(pending), old(mockDataInterval))
                           [old(nextTimerId) := Timer(clock + DataPeriod, Tick)]
      ensures emitted == old(emitted) + [Emission(ConnectionEvent, ConnectionChange(Connected))]
                                         + [Emission(DataEvent, Data(MakeSample(draws, clock)))]
      ensures delivered == old(delivered) + Dispatch(listeners, ConnectionEvent, ConnectionChange(Connected))
                                          + Dispatch(listeners, DataEvent, Data(MakeSample(draws, clock)))
    {
      connected := true;
      Emit(ConnectionEvent, ConnectionChange(Connected));
      StartMockDataStream(draws);
    }

    /** One period of the live telemetry interval: it is requeued one period later and one sample goes out. */
    method FireInterval(id: nat, draws: SampleDraws)
      requires TimersValid() && id < nextTimerId && id !in pending
      requires mockDataInterval == Some(id) && connected
      requires forall j :: j in pending ==> pending[j].action != Tick
      requires LastStatus(emitted) == Some(Connected)
      modifies this`pending, this`emitted, this`delivered
      ensures Valid()
      ensures pending == old(pending)[id := Timer(clock + DataPeriod, Tick)]
      ensures emitted == old(emitted) + [Emission(DataEvent, Data(MakeSample(draws, clock)))]
      ensures delivered == old(delivered) + Dispatch(listeners, DataEvent, Data(MakeSample(draws, clock)))
    {
      FireTick(id, draws);
    }

    /**
     * The interval callback as written: the interval stays queued, and a sample
     * goes out only while connected.
     */
    method FireTick(id: nat, draws: SampleDraws)
      requires TimersValid() && id < nextTimerId
      modifies this`pending, this`emitted, this`delivered
      ensures TimersValid()
      ensures pending == old(pending)[id := Timer(clock + DataPeriod, Tick)]
      ensures !connected ==> emitted == old(emitted) && delivered == old(delivered)
      ensures connected ==>
                && emitted == old(emitted) + [Emission(DataEvent, Data(MakeSample(draws, clock)))]
                && delivered == old(delivered) + Dispatch(listeners, DataEvent, Data(MakeSample(draws, clock)))
      ensures LastStatus(emitted) == LastStatus(old(emitted))
    {
      pending := pending[id := Timer(clock + DataPeriod, Tick)];
      if !connected {
        return;
      }
      var mockData := MakeSample(draws, clock);
      Emit(DataEvent, Data(mockData));
    }

    /** The callback `sendCommand` queued: the success response, whatever the link state is now. */
    method FireResponse(command: string)
      requires Valid()
      modifies this`emitted, this`delivered
      ensures Valid()
      ensures emitted == old(emitted) + [Emission(CommandResponseEvent, CommandResponse(command, Success, CommandMessage(command), clock))]
      ensures delivered == old(delivered) + Dispatch(listeners, CommandResponseEvent, CommandResponse(command, Success, CommandMessage(command), clock))
    {
      Emit(CommandResponseEvent, CommandResponse(command, Success, CommandMessage(command), clock));
    }
  }

  /**
   * A fresh service once its start-up timers have run: `connect` at 1500 ms,
   * the link up at 2500 ms with one sample sent and the interval queued.
   */
  method OpenSession(t0: int, d: SampleDraws) returns (s: MockWebSocketService)
    ensures fresh(s) && s.Valid()
    ensures s.connected && s.clock == t0 + 2500 && s.nextTimerId == 3
    ensures s.mockDataInterval == Some(2) && s.pending == map[2 := Timer(t0 + 32500, Tick)]
    ensures s.emitted == [Emission(ConnectionEvent, ConnectionChange(Connected)),
                          Emission(DataEvent, Data(MakeSample(d, t0 + 2500)))]
  {
    s := new MockWebSocketService(t0);
    FreshConnectRuns(s, t0, d);
    var linkUp := s.Step(d);
    assert linkUp == Some(1);
  }

  /** The constructor's `connect` runs alone and queues its link callback at 2500 ms. */
  method FreshConnectRuns(s: MockWebSocketService, t0: int, d: SampleDraws)
    requires s.Valid() && !s.connected && s.nextTimerId == 1 && s.clock == t0
    requires s.mockDataInterval == None && s.emitted == []
    requires s.pending == map[0 := Timer(t0 + 1500, CallConnect)]
    modifies s
    ensures s.Valid() && !s.connected && s.nextTimerId == 2 && s.clock == t0 + 1500
    ensures s.mockDataInterval == None && s.emitted == []
    ensures s.pending == map[1 := Timer(t0 + 2500, Establish)]
  {
    var fired := s.Step(d);
    assert fired == Some(0);
  }

  /**
   * A client's view of one session: the service connects on its own, streams
   * one sample at once and one per period, and after `disconnect` nothing is
   * left to fire.
   */
  method ConnectStreamDisconnect(t0: int, d1: SampleDraws, d2: SampleDraws) returns (log: seq<Emission>, idle: Option<nat>)
    ensures log == [Emission(ConnectionEvent, ConnectionChange(Connected)),
                    Emission(DataEvent, Data(MakeSample(d1, t0 + 2500))),
                    Emission(DataEvent, Data(MakeSample(d2, t0 + 32500))),
                    Emission(ConnectionEvent, ConnectionChange(Disconnected))]
    ensures idle == None
  {
    var s := OpenSession(t0, d1);
    var period := s.Step(d2);
    assert period == Some(2);
    assert s.clock == t0 + 32500 && s.mockDataInterval == Some(2) && s.pending.Keys == {2};
    ghost var streamed := s.emitted;
    assert streamed == [Emission(ConnectionEvent, ConnectionChange(Connected)),
                        Emission(DataEvent, Data(MakeSample(d1, t0 + 2500))),
                        Emission(DataEvent, Data(MakeSample(d2, t0 + 32500)))];
    s.Disconnect();
    assert s.emitted == streamed + [Emission(ConnectionEvent, ConnectionChange(Disconnected))];
    assert s.pending == map[];
    idle := s.Step(d2);
    log := s.emitted;
  }

  /**
   * `reconnect` right after construction, before the constructor's timer has
   * fired: two `connect` calls are now queued, 1500 ms and 2000 ms after start.
   */
  method RaceStartup(t0: int) returns (s: MockWebSocketService)
    ensures fresh(s) && s.Valid()
    ensures !s.connected && s.nextTimerId == 2 && s.clock == t0
    ensures s.pending == map[0 := Timer(t0 + 1500, CallConnect), 1 := Timer(t0 + 2000, CallConnect)]
    ensures s.emitted == [Emission(ConnectionEvent, ConnectionChange(Disconnected)),
                          Emission(ConnectionEvent, ConnectionChange(Reconnecting))]
  {
    s := new MockWebSocketService(t0);
    s.Reconnect();
  }

  /** The constructor's `connect` runs first and queues its link callback at 2500 ms. */
  method StartupConnectRuns(s: MockWebSocketService, t0: int, d: SampleDraws)
    requires s.Valid() && !s.connected && s.nextTimerId == 2 && s.clock == t0
    requires s.pending == map[0 := Timer(t0 + 1500, CallConnect), 1 := Timer(t0 + 2000, CallConnect)]
    modifies s
    ensures s.Valid() && !s.connected && s.nextTimerId == 3 && s.clock == t0 + 1500
    ensures s.pending == map[1 := Timer(t0 + 2000, CallConnect), 2 := Timer(t0 + 2500, Establish)]
    ensures s.emitted == old(s.emitted)
  {
    var fired := s.Step(d);
    assert fired == Some(0);
  }

  /** The reconnect's `connect` runs next: two link callbacks are queued, at 2500 ms and 3000 ms. */
  method ReconnectConnectRuns(s: MockWebSocketService, t0: int, d: SampleDraws)
    requires s.Valid() && !s.connected && s.nextTimerId == 3 && s.clock == t0 + 1500
    requires s.pending == map[1 := Timer(t0 + 2000, CallConnect), 2 := Timer(t0 + 2500, Establish)]
    modifies s
    ensures s.Valid() && !s.connected && s.nextTimerId == 4 && s.clock == t0 + 2000
    ensures s.pending == map[2 := Timer(t0 + 2500, Establish), 3 := Timer(t0 + 3000, Establish)]
    ensures s.emitted == old(s.emitted)
  {
    var fired := s.Step(d);
    assert fired == Some(1);
  }

  /** The first of the two queued callbacks runs: the link is up and the first interval queued. */
  method FirstLinkUp(s: MockWebSocketService, t0: int, d: SampleDraws)
    requires s.Valid() && !s.connected && s.nextTimerId == 4 && s.clock == t0 + 2000
    requires s.pending == map[2 := Timer(t0 + 2500, Establish), 3 := Timer(t0 + 3000, Establish)]
    modifies s
    ensures s.Valid() && s.connected && s.nextTimerId == 5 && s.clock == t0 + 2500
    ensures s.mockDataInterval == Some(4)
    ensures s.pending == map[3 := Timer(t0 + 3000, Establish), 4 := Timer(t0 + 32500, Tick)]
    ensures s.emitted == old(s.emitted) + [Emission(ConnectionEvent, ConnectionChange(Connected))]
                                        + [Emission(DataEvent, Data(MakeSample(d, t0 + 2500)))]
  {
    var fired := s.Step(d);
    assert fired == Some(2);
  }

  /** The second queued callback runs while connected: "connected" again, and the stream restarts. */
  method SecondLinkUp(s: MockWebSocketService, t0: int, d: SampleDraws)
    requires s.Valid() && s.connected && s.nextTimerId == 5 && s.clock == t0 + 2500
    requires s.mockDataInterval == Some(4)
    requires s.pending == map[3 := Timer(t0 + 3000, Establish), 4 := Timer(t0 + 32500, Tick)]
    modifies s
    ensures s.Valid() && s.connected && s.mockDataInterval == Some(5)
    ensures s.pending == map[5 := Timer(t0 + 33000, Tick)]
    ensures s.emitted == old(s.emitted) + [Emission(ConnectionEvent, ConnectionChange(Connected))]
                                        + [Emission(DataEvent, Data(MakeSample(d, t0 + 3000)))]
  {
    var fired := s.Step(d);
    assert fired == Some(3);
  }

  /** The statuses a list of emissions announces, read off one emission at a time. */
  lemma AnnouncedRace(a: Emission, b: Emission, c: Emission, x: Emission, e: Emission, y: Emission)
    requires a.payload == ConnectionChange(Disconnected) && b.payload == ConnectionChange(Reconnecting)
    requires c.payload == ConnectionChange(Connected) && e.payload == ConnectionChange(Connected)
    requires x.payload.Data? && y.payload.Data?
    ensures Announced([a, b, c, x, e, y]) == [Disconnected, Reconnecting, Connected, Connected]
  {
    AnnouncedAppend([], a);
    assert [] + [a] == [a];
    assert Announced([a]) == [Disconnected];
    AnnouncedAppend([a], b);
    assert [a] + [b] == [a, b];
    assert Announced([a, b]) == [Disconnected, Reconnecting];
    AnnouncedAppend([a, b], c);
    assert [a, b] + [c] == [a, b, c];
    assert Announced([a, b, c]) == [Disconnected, Reconnecting, Connected];
    AnnouncedAppend([a, b, c], x);
    assert [a, b, c] + [x] == [a, b, c, x];
    assert Announced([a, b, c, x]) == [Disconnected, Reconnecting, Connected];
    AnnouncedAppend([a, b, c, x], e);
    assert [a, b, c, x] + [e] == [a, b, c, x, e];
    assert Announced([a, b, c, x, e]) == [Disconnected, Reconnecting, Connected, Connected];
    AnnouncedAppend([a, b, c, x, e], y);
    assert [a, b, c, x, e] + [y] == [a, b, c, x, e, y];
  }

  /**
   * Both queued callbacks run: "connected" is announced twice in a row. The
   * second start of the stream replaces the first interval, so one interval
   * remains.
   */
  method ReconnectDuringStartup(t0: int, d: SampleDraws) returns (statuses: seq<Status>, intervals: set<nat>)
    ensures statuses == [Disconnected, Reconnecting, Connected, Connected]
    ensures intervals == {5}
  {
    var s := RaceStartup(t0);
    StartupConnectRuns(s, t0, d);
    ReconnectConnectRuns(s, t0, d);
    FirstLinkUp(s, t0, d);
    SecondLinkUp(s, t0, d);
    AnnouncedRace(s.emitted[0], s.emitted[1], s.emitted[2], s.emitted[3], s.emitted[4], s.emitted[5]);
    assert s.emitted == [s.emitted[0], s.emitted[1], s.emitted[2], s.emitted[3], s.emitted[4], s.emitted[5]];
    statuses := Announced(s.emitted);
    intervals := set id | id in s.pending && s.pending[id].action == Tick;
  }

  /**
   * `disconnect` twice: the second call finds nothing left to clear, yet
   * announces "disconnected" again.
   */
  method DisconnectTwice(t0: int, d: SampleDraws) returns (last2: seq<Emission>, queued: map<nat, Timer>)
    ensures last2 == [Emission(ConnectionEvent, ConnectionChange(Disconnected)),
                      Emission(ConnectionEvent, ConnectionChange(Disconnected))]
    ensures queued == map[]
  {
    var s := OpenSession(t0, d);
    s.Disconnect();
    s.Disconnect();
    last2 := s.emitted[|s.emitted| - 2..];
    queued := s.pending;
  }

  /**
   * A command accepted while connected is still answered, with a success
   * response, after the link has been closed.
   */
  method ResponseAfterDisconnect(t0: int, d: SampleDraws, command: string) returns (connectedNow: bool, last: Emission)
    ensures !connectedNow
    ensures last == Emission(CommandResponseEvent, CommandResponse(command, Success, CommandMessage(command), t0 + 3000))
  {
    var s := OpenSession(t0, d);
    s.SendCommand(command);
    s.Disconnect();
    assert s.pending == map[3 := Timer(t0 + 3000, Respond(command))];
    var response := s.Step(d);
    assert response == Some(3);
    connectedNow := s.IsConnected();
    last := s.emitted[|s.emitted| - 1];
  }

  /**
   * A command sent 100 ms after the link came up is answered 500 ms later,
   * between the first sample and the next one, and the interval stays queued.
   */
  method CommandBetweenTicks(t0: int, d: SampleDraws, command: string) returns (response: Emission, nextTick: Option<Timer>)
    ensures response == Emission(CommandResponseEvent, CommandResponse(command, Success, CommandMessage(command), t0 + 3100))
    ensures nextTick == Some(Timer(t0 + 32500, Tick))
  {
    var s := OpenSession(t0, d);
    s.AdvanceClock(t0 + 2600);
    s.SendCommand(command);
    assert s.pending == map[2 := Timer(t0 + 32500, Tick), 3 := Timer(t0 + 3100, Respond(command))];
    var fired := s.Step(d);
    assert fired == Some(3);
    response := s.emitted[|s.emitted| - 1];
    nextTick := if 2 in s.pending then Some(s.pending[2]) else None;
  }
}
