/**
 * The dashboard page of `src/pages/Index.tsx`: the latest sample, three
 * 60-point sensor histories, the loading flag and the connection status,
 * updated by the service's "data" and "connection" handlers and by the manual
 * refresh.
 *
 * React state setters become assignments to the fields of `DashboardPage`;
 * functional updates (`setX(prev => ...)`) read the current field. The refresh
 * timer is a count of scheduled callbacks, and `RefreshFired` runs one of them.
 */
module Dashboard {
  import opened Wrappers
  import MockData
  import WebSocket

  type Point = MockData.Point

  /** Points kept per history: 30 minutes at one sample per 30 s. */
  const Window: nat := 60

  /** The histories the page starts with: 20 points, 30000 ms apart. */
  const InitialPoints: int := 20
  const InitialInterval: int := 30000

  /** `s.slice(-60)`: the last 60 elements, or all of `s` when it is shorter. */
  function Recent(s: seq<Point>): (r: seq<Point>)
    ensures |r| == if |s| <= Window then |s| else Window
    ensures r == s[|s| - |r|..]
  {
    if |s| <= Window then s else s[|s| - Window..]
  }

  /** One history update: `[...prev, p].slice(-60)`. */
  function KeepLast(prev: seq<Point>, p: Point): (r: seq<Point>)
    ensures |r| == if |prev| < Window then |prev| + 1 else Window
    ensures r[|r| - 1] == p
  {
    Recent(prev + [p])
  }

  /** Below the window an update only appends; at the window it also drops the oldest point. */
  lemma KeepLastShape(prev: seq<Point>, p: Point)
    ensures |prev| < Window ==> KeepLast(prev, p) == prev + [p]
    ensures |prev| >= Window ==> KeepLast(prev, p) == prev[|prev| - Window + 1..] + [p]
  {
  }

  /** Trimming first and trimming after appending more agree. */
  lemma RecentConcat(s: seq<Point>, t: seq<Point>)
    ensures Recent(Recent(s) + t) == Recent(s + t)
  {
    var rs := Recent(s);
    var k := |s| - |rs|;
    assert rs + t == (s + t)[k..];
    var a := Recent(rs + t);
    var b := Recent(s + t);
    assert |a| == |b|;
    calc {
      a;
      (rs + t)[|rs + t| - |a|..];
      (s + t)[k..][|rs| + |t| - |a|..];
      (s + t)[|s + t| - |b|..];
      b;
    }
  }

  /** The histories after a run of updates, one point at a time. */
  function Feed(h: seq<Point>, ps: seq<Point>): seq<Point>
    decreases |ps|
  {
    if ps == [] then h else Feed(KeepLast(h, ps[0]), ps[1..])
  }

  /**
   * However many updates arrive, a history that starts within the window is
   * always the last 60 points of everything it has been given.
   */
  lemma {:induction false} FeedKeepsRecent(h: seq<Point>, ps: seq<Point>)
    requires |h| <= Window
    ensures Feed(h, ps) == Recent(h + ps)
    decreases |ps|
  {
    if ps == [] {
      assert h + ps == h;
    } else {
      FeedKeepsRecent(KeepLast(h, ps[0]), ps[1..]);
      KeepLastThenRecent(h, ps);
    }
  }

  /** Updating with the first point and trimming the rest is trimming everything. */
  lemma KeepLastThenRecent(h: seq<Point>, ps: seq<Point>)
    requires ps != []
    ensures Recent(KeepLast(h, ps[0]) + ps[1..]) == Recent(h + ps)
  {
    RecentConcat(h + [ps[0]], ps[1..]);
    assert h + [ps[0]] + ps[1..] == h + ps;
  }

  class DashboardPage {
    var sensorData: Option<WebSocket.Sample>
    var temperatureHistory: seq<Point>
    var turbidityHistory: seq<Point>
    var phHistory: seq<Point>
    var lastUpdated: Option<int>
    var isLoading: bool
    var connectionStatus: WebSocket.Status
    // Refresh callbacks scheduled and not yet run.
    var pendingRefreshes: nat
    // The sample the mount effect's closures see: the state of the first render.
    var sensorDataAtMount: Option<WebSocket.Sample>

    /** The three histories stay within the window and grow together. */
    ghost predicate Valid()
      reads this`temperatureHistory, this`turbidityHistory, this`phHistory, this`sensorDataAtMount
    {
      && |temperatureHistory| <= Window
      && |turbidityHistory| == |temperatureHistory|
      && |phHistory| == |temperatureHistory|
      && sensorDataAtMount == None
    }

    /** Whether the refresh button is disabled: it is enabled only while connected and not loading. */
    function RefreshDisabled(): (disabled: bool)
      reads this`isLoading, this`connectionStatus
      ensures !disabled <==> connectionStatus == WebSocket.Connected && !isLoading
    {
      isLoading || connectionStatus != WebSocket.Connected
    }

    /**
     * The initial state and the mount effect: no sample yet, loading,
     * disconnected, and three generated histories of 20 points 30 s apart.
     */
    constructor (temperatureDraws: MockData.SeriesDraws, turbidityDraws: MockData.SeriesDraws,
                 phDraws: MockData.SeriesDraws)
      requires |temperatureDraws.steps| == InitialPoints
      requires |turbidityDraws.steps| == InitialPoints
      requires |phDraws.steps| == InitialPoints
      ensures Valid()
      ensures sensorData == None && lastUpdated == None && isLoading
      ensures connectionStatus == WebSocket.Disconnected && pendingRefreshes == 0
      ensures |temperatureHistory| == InitialPoints
      ensures forall i :: 0 <= i < InitialPoints ==>
                temperatureHistory[i].timestamp == MockData.SeriesTimestamp(temperatureDraws.now, InitialPoints, InitialInterval, i)
                && turbidityHistory[i].timestamp == MockData.SeriesTimestamp(turbidityDraws.now, InitialPoints, InitialInterval, i)
                && phHistory[i].timestamp == MockData.SeriesTimestamp(phDraws.now, InitialPoints, InitialInterval, i)
      ensures forall i :: 0 <= i < InitialPoints ==>
                && 20.0 <= temperatureHistory[i].value <= 30.0
                && 0.0 <= turbidityHistory[i].value <= 10.0
                && 6.5 <= phHistory[i].value <= 8.5
    {
      sensorData := None;
      sensorDataAtMount := sensorData;
      lastUpdated := None;
      isLoading := true;
      connectionStatus := WebSocket.Disconnected;
      pendingRefreshes := 0;
      var temperature := MockData.GenerateTimeSeriesData(MockData.Temperature, InitialPoints, InitialInterval, temperatureDraws);
      var turbidity := MockData.GenerateTimeSeriesData(MockData.Turbidity, InitialPoints, InitialInterval, turbidityDraws);
      var ph := MockData.GenerateTimeSeriesData(MockData.Ph, InitialPoints, InitialInterval, phDraws);
      temperatureHistory := temperature;
      turbidityHistory := turbidity;
      phHistory := ph;
      MockData.TimeSeriesTimestamps(MockData.Temperature, InitialPoints, InitialInterval, temperatureDraws, temperature);
      MockData.TimeSeriesTimestamps(MockData.Turbidity, InitialPoints, InitialInterval, turbidityDraws, turbidity);
      MockData.TimeSeriesTimestamps(MockData.Ph, InitialPoints, InitialInterval, phDraws, ph);
      MockData.TimeSeriesValues(MockData.Temperature, InitialPoints, InitialInterval, temperatureDraws, temperature);
      MockData.TimeSeriesValues(MockData.Turbidity, InitialPoints, InitialInterval, turbidityDraws, turbidity);
      MockData.TimeSeriesValues(MockData.Ph, InitialPoints, InitialInterval, phDraws, ph);
    }

    /**
     * `handleData`: the sample becomes current, loading ends, and each history
     * gets one point with the sample's timestamp and its own channel.
     */
    method HandleData(data: WebSocket.Sample)
      requires Valid()
      modifies this`sensorData, this`lastUpdated, this`isLoading
      modifies this`temperatureHistory, this`turbidityHistory, this`phHistory
      ensures Valid()
      ensures sensorData == Some(data) && lastUpdated == Some(data.timestamp) && !isLoading
      ensures temperatureHistory == KeepLast(old(temperatureHistory), MockData.Point(data.timestamp, data.temperature))
      ensures turbidityHistory == KeepLast(old(turbidityHistory), MockData.Point(data.timestamp, data.turbidity))
      ensures phHistory == KeepLast(old(phHistory), MockData.Point(data.timestamp, data.ph))
      ensures RefreshDisabled() <==> connectionStatus != WebSocket.Connected
    {
      var temperature := KeepLast(temperatureHistory, MockData.Point(data.timestamp, data.temperature));
      var turbidity := KeepLast(turbidityHistory, MockData.Point(data.timestamp, data.turbidity));
      var ph := KeepLast(phHistory, MockData.Point(data.timestamp, data.ph));
      assert |turbidity| == |temperature| && |ph| == |temperature| <= Window;
      sensorData := Some(data);
      lastUpdated := Some(data.timestamp);
      isLoading := false;
      temperatureHistory, turbidityHistory, phHistory := temperature, turbidity, ph;
    }

    /** `handleConnection`: the status is shown as announced; "disconnected" also starts loading. */
    method HandleConnection(status: WebSocket.Status)
      modifies this`connectionStatus, this`isLoading
      ensures connectionStatus == status
      ensures isLoading <==> status == WebSocket.Disconnected || old(isLoading)
      ensures status != WebSocket.Connected ==> RefreshDisabled()
      ensures status == WebSocket.Connected ==> (RefreshDisabled() <==> isLoading)
    {
      connectionStatus := status;
      if status == WebSocket.Disconnected {
        isLoading := true;
      }
    }

    /** `handleRefresh`: loading starts and one refresh callback is scheduled 1000 ms later. */
    method HandleRefresh()
      modifies this`isLoading, this`pendingRefreshes
      ensures isLoading && pendingRefreshes == old(pendingRefreshes) + 1
      ensures RefreshDisabled()
    {
      isLoading := true;
      pendingRefreshes := pendingRefreshes + 1;
    }

    /**
     * A scheduled refresh callback runs at time `now`: it builds a sample from
     * three draws, as the service does, and applies the same update as `handleData`.
     */
    method RefreshFired(draws: WebSocket.SampleDraws, now: int)
      requires Valid() && pendingRefreshes > 0
      modifies this`sensorData, this`lastUpdated, this`isLoading, this`pendingRefreshes
      modifies this`temperatureHistory, this`turbidityHistory, this`phHistory
      ensures Valid()
      ensures pendingRefreshes == old(pendingRefreshes) - 1
      ensures sensorData == Some(WebSocket.MakeSample(draws, now)) && lastUpdated == Some(now) && !isLoading
      ensures temperatureHistory == KeepLast(old(temperatureHistory), MockData.Point(now, WebSocket.MakeSample(draws, now).temperature))
      ensures turbidityHistory == KeepLast(old(turbidityHistory), MockData.Point(now, WebSocket.MakeSample(draws, now).turbidity))
      ensures phHistory == KeepLast(old(phHistory), MockData.Point(now, WebSocket.MakeSample(draws, now).ph))
    {
      pendingRefreshes := pendingRefreshes - 1;
      var mockData := WebSocket.MakeSample(draws, now);
      HandleData(mockData);
    }

    /**
     * The initial-load timeout as written: its callback tests the sample
     * captured when the effect ran, not the current one. That sample is
     * always absent, so the callback always ends loading.
     */
    method InitialLoadTimeoutAsWritten()
      requires Valid()
      modifies this`isLoading
      ensures sensorDataAtMount.None? ==> !isLoading
      ensures sensorDataAtMount.Some? ==> isLoading == old(isLoading)
      ensures !isLoading
    {
      if sensorDataAtMount.None? {
        isLoading := false;
      }
    }

    /** The initial-load timeout as intended: it ends loading only when no sample has arrived yet. */
    method InitialLoadTimeout()
      modifies this`isLoading
      ensures sensorData.None? ==> !isLoading
      ensures sensorData.Some? ==> isLoading == old(isLoading)
    {
      if sensorData.None? {
        isLoading := false;
      }
    }
  }

  /** The page just after mount, before any sample: loading, nothing scheduled. */
  method Mounted(temperatureDraws: MockData.SeriesDraws, turbidityDraws: MockData.SeriesDraws,
                 phDraws: MockData.SeriesDraws)
    returns (page: DashboardPage)
    requires |temperatureDraws.steps| == InitialPoints
    requires |turbidityDraws.steps| == InitialPoints
    requires |phDraws.steps| == InitialPoints
    ensures fresh(page) && page.Valid()
    ensures page.sensorData == None && page.isLoading && page.pendingRefreshes == 0
  {
    page := new DashboardPage(temperatureDraws, turbidityDraws, phDraws);
  }

  /** The service connects, the first sample arrives, and the user refreshes. */
  method FirstSampleThenRefresh(page: DashboardPage, first: WebSocket.Sample)
    requires page.Valid() && page.pendingRefreshes == 0
    modifies page
    ensures page.Valid() && page.sensorData == Some(first)
    ensures page.isLoading && page.pendingRefreshes == 1
  {
    page.HandleConnection(WebSocket.Connected);
    assert page.Valid();
    page.HandleData(first);
    page.HandleRefresh();
    assert page.Valid();
  }

  /**
   * The first sample arrives, the user refreshes, and then the 3000 ms
   * initial-load timeout fires while the refresh is still scheduled: as
   * written, loading ends before the refresh callback has run.
   */
  method RefreshCutShortAsWritten(temperatureDraws: MockData.SeriesDraws, turbidityDraws: MockData.SeriesDraws,
                                  phDraws: MockData.SeriesDraws, first: WebSocket.Sample)
    returns (loading: bool, scheduled: nat)
    requires |temperatureDraws.steps| == InitialPoints
    requires |turbidityDraws.steps| == InitialPoints
    requires |phDraws.steps| == InitialPoints
    ensures scheduled == 1 && !loading
  {
    var page := Mounted(temperatureDraws, turbidityDraws, phDraws);
    FirstSampleThenRefresh(page, first);
    page.InitialLoadTimeoutAsWritten();
    loading := page.isLoading;
    scheduled := page.pendingRefreshes;
  }

  /** The same sequence with the intended timeout: loading goes on until the refresh callback runs. */
  method RefreshKeepsLoading(temperatureDraws: MockData.SeriesDraws, turbidityDraws: MockData.SeriesDraws,
                             phDraws: MockData.SeriesDraws, first: WebSocket.Sample)
    returns (loading: bool, scheduled: nat)
    requires |temperatureDraws.steps| == InitialPoints
    requires |turbidityDraws.steps| == InitialPoints
    requires |phDraws.steps| == InitialPoints
    ensures scheduled == 1 && loading
  {
    var page := Mounted(temperatureDraws, turbidityDraws, phDraws);
    FirstSampleThenRefresh(page, first);
    page.InitialLoadTimeout();
    loading := page.isLoading;
    scheduled := page.pendingRefreshes;
  }
}
