/**
 * The mock telemetry generators of `src/lib/mockData.ts`: the sensor table, a
 * clamped random walk for history charts, a uniform "current" reading, and the
 * generated alert list.
 *
 * Every `Math.random()` draw is passed in as a `Draw` and every `Date.now()`
 * reading as an `int` of epoch milliseconds, so each generator is a
 * deterministic function of its arguments.
 */
module MockData {

  /** One result of the platform's uniform random source: a real in [0, 1). */
  type Draw = r: real | 0.0 <= r < 1.0

  const MINUTE: int := 60 * 1000
  const HOUR: int := 60 * MINUTE
  const DAY: int := 24 * HOUR

  datatype Sensor = Temperature | Turbidity | Ph

  datatype SensorConfig = SensorConfig(min: real, max: real, unit: string, color: string, fluctuation: real)

  /** The keys of the sensor table, in declaration order (`Object.keys(SENSORS)`). */
  const SensorKeys: seq<Sensor> := [Temperature, Turbidity, Ph]

  function SensorKey(s: Sensor): string {
    match s
    case Temperature => "temperature"
    case Turbidity => "turbidity"
    case Ph => "ph"
  }

  /**
   * The sensor table `SENSORS`, looked up by key as `getSensorConfig` does. The
   * temperature unit keeps the two characters the table holds, a degree sign
   * preceded by U+00C2 (a UTF-8 degree sign read back as Latin-1).
   */
  function GetSensorConfig(s: Sensor): (c: SensorConfig)
    ensures c.min < c.max
    ensures 0.0 < c.fluctuation < c.max - c.min
  {
    match s
    case Temperature => SensorConfig(20.0, 30.0, "\U{C2}\U{B0}C", "hsl(217, 91%, 60%)", 0.5)
    case Turbidity => SensorConfig(0.0, 10.0, "NTU", "hsl(174, 100%, 29%)", 0.2)
    case Ph => SensorConfig(6.5, 8.5, "", "hsl(271, 91%, 65%)", 0.1)
  }

  /** A draw scaled to a positive width stays below that width. */
  lemma ScaledDrawBelow(d: Draw, w: real)
    requires 0.0 < w
    ensures 0.0 <= d * w < w
  {
  }

  /** `min + Math.random() * (max - min)`. */
  function UniformIn(c: SensorConfig, d: Draw): real {
    c.min + d * (c.max - c.min)
  }

  /** `getCurrentValue`: the current reading of a sensor, uniform in its range. */
  function GetCurrentValue(s: Sensor, d: Draw): (v: real)
    ensures GetSensorConfig(s).min <= v < GetSensorConfig(s).max
  {
    UniformIn(GetSensorConfig(s), d)
  }

  // ---------------------------------------------------------------------------
  // The clamped random walk of `generateTimeSeriesData`
  // ---------------------------------------------------------------------------

  datatype Point = Point(timestamp: int, value: real)

  /** The draws one call of `generateTimeSeriesData` consumes: the clock, the start value, one step per point. */
  datatype SeriesDraws = SeriesDraws(now: int, seed: Draw, steps: seq<Draw>)

  /** How many times `for (let i = 0; i < n; i++)` runs. */
  function Count(n: int): nat {
    if n < 0 then 0 else n
  }

  /** `Math.max(lo, Math.min(hi, v))`. */
  function Clamp(v: real, lo: real, hi: real): (r: real)
    requires lo <= hi
    ensures lo <= r <= hi
    ensures lo <= v <= hi ==> r == v
    ensures v < lo ==> r == lo
    ensures hi < v ==> r == hi
  {
    var m := if hi < v then hi else v;
    if m < lo then lo else m
  }

  /** `(Math.random() - 0.5) * 2 * fluctuation`: a perturbation of at most `f` either way. */
  function Perturbation(d: Draw, f: real): (p: real)
    requires 0.0 <= f
    ensures -f <= p <= f
  {
    if f == 0.0 then 0.0
    else
      ScaledDrawBelow(d, f);
      (d - 0.5) * 2.0 * f
  }

  /** One step of the walk: perturb the last value, then clamp into the sensor's range. */
  function WalkStep(c: SensorConfig, last: real, d: Draw): (v: real)
    requires c.min < c.max && 0.0 < c.fluctuation
    ensures c.min <= v <= c.max
    ensures c.min <= last <= c.max ==> -c.fluctuation <= v - last <= c.fluctuation
  {
    Clamp(last + Perturbation(d, c.fluctuation), c.min, c.max)
  }

  function LastOr(seed: real, vs: seq<real>): real {
    if vs == [] then seed else vs[|vs| - 1]
  }

  /** The values of the walk started at `seed`, one per step draw (reference definition). */
  function Walk(c: SensorConfig, seed: real, ds: seq<Draw>): (vs: seq<real>)
    requires c.min < c.max && 0.0 < c.fluctuation
    ensures |vs| == |ds|
  {
    if ds == [] then []
    else
      var prev := Walk(c, seed, ds[..|ds| - 1]);
      prev + [WalkStep(c, LastOr(seed, prev), ds[|ds| - 1])]
  }

  /** Every value of the walk lies in the sensor's closed range, and each differs from its predecessor (the seed, for the first) by at most the fluctuation. */
  lemma {:induction false} WalkBoundedAndSmooth(c: SensorConfig, seed: real, ds: seq<Draw>)
    requires c.min < c.max && 0.0 < c.fluctuation
    requires c.min <= seed <= c.max
    ensures forall i :: 0 <= i < |ds| ==> c.min <= Walk(c, seed, ds)[i] <= c.max
    ensures |ds| > 0 ==> -c.fluctuation <= Walk(c, seed, ds)[0] - seed <= c.fluctuation
    ensures forall i :: 0 < i < |ds| ==>
              -c.fluctuation <= Walk(c, seed, ds)[i] - Walk(c, seed, ds)[i - 1] <= c.fluctuation
  {
    if ds != [] {
      var prev := Walk(c, seed, ds[..|ds| - 1]);
      WalkBoundedAndSmooth(c, seed, ds[..|ds| - 1]);
      assert c.min <= LastOr(seed, prev) <= c.max;
    }
  }

  /** Timestamp of point `i` of an `n`-point series ending at `now`. */
  function SeriesTimestamp(now: int, n: int, interval: int, i: int): int {
    now - (n - i - 1) * interval
  }

  /** The series ends at `now`, consecutive timestamps are `interval` apart, and they strictly increase for a positive interval. */
  lemma SeriesTimestampsSpaced(now: int, n: int, interval: int)
    ensures n > 0 ==> SeriesTimestamp(now, n, interval, n - 1) == now
    ensures forall i :: 0 <= i < n - 1 ==> SeriesTimestamp(now, n, interval, i + 1) - SeriesTimestamp(now, n, interval, i) == interval
    ensures interval > 0 ==> forall i, j :: 0 <= i < j < n ==> SeriesTimestamp(now, n, interval, i) < SeriesTimestamp(now, n, interval, j)
  {
    forall i | 0 <= i < n - 1 ensures SeriesTimestamp(now, n, interval, i + 1) - SeriesTimestamp(now, n, interval, i) == interval {
      assert (n - i - 1) * interval - (n - (i + 1) - 1) * interval == interval;
    }
    if interval > 0 {
      forall i, j | 0 <= i < j < n ensures SeriesTimestamp(now, n, interval, i) < SeriesTimestamp(now, n, interval, j) {
        assert SeriesTimestamp(now, n, interval, j) - SeriesTimestamp(now, n, interval, i) == (j - i) * interval;
        assert (j - i) * interval > 0;
      }
    }
  }

  /** The points of an `n`-point series ending at `now`: value `vs[i]` at the timestamp of point `i`. */
  function SeriesPoints(now: int, n: int, interval: int, vs: seq<real>): seq<Point> {
    seq(|vs|, i requires 0 <= i < |vs| => Point(SeriesTimestamp(now, n, interval, i), vs[i]))
  }

  /** One more value adds one point, stamped with the next index. */
  lemma SeriesPointsAppend(now: int, n: int, interval: int, vs: seq<real>, v: real)
    ensures SeriesPoints(now, n, interval, vs + [v])
            == SeriesPoints(now, n, interval, vs) + [Point(SeriesTimestamp(now, n, interval, |vs|), v)]
  {
  }

  /**
   * What `generateTimeSeriesData` returns (reference definition): the walk from
   * the sensor's current value, one point per step draw, stamped up to `now`.
   */
  function TimeSeries(sensor: Sensor, numPoints: int, intervalMs: int, r: SeriesDraws): seq<Point> {
    SeriesPoints(r.now, numPoints, intervalMs, Walk(GetSensorConfig(sensor), GetCurrentValue(sensor, r.seed), r.steps))
  }

  /** `generateTimeSeriesData(sensorType, numPoints, intervalMs)`. */
  method GenerateTimeSeriesData(sensor: Sensor, numPoints: int, intervalMs: int, r: SeriesDraws)
    returns (data: seq<Point>)
    requires |r.steps| == Count(numPoints)
    ensures data == TimeSeries(sensor, numPoints, intervalMs, r)
  {
    var config := GetSensorConfig(sensor);
    var start := GetCurrentValue(sensor, r.seed);
    var lastValue := start;
    data := [];
    ghost var walked: seq<real> := [];
    var i := 0;
    while i < numPoints
      invariant 0 <= i <= Count(numPoints)
      invariant |walked| == i && walked == Walk(config, start, r.steps[..i])
      invariant data == SeriesPoints(r.now, numPoints, intervalMs, walked)
      invariant lastValue == LastOr(start, walked)
    {
      var fluctuation := Perturbation(r.steps[i], config.fluctuation);
      var newValue := lastValue + fluctuation;
      newValue := Clamp(newValue, config.min, config.max);
      assert r.steps[..i + 1][..i] == r.steps[..i];
      assert newValue == WalkStep(config, lastValue, r.steps[i]);
      SeriesPointsAppend(r.now, numPoints, intervalMs, walked, newValue);
      data := data + [Point(r.now - (numPoints - i - 1) * intervalMs, newValue)];
      walked := walked + [newValue];
      lastValue := newValue;
      i := i + 1;
    }
    assert r.steps[..i] == r.steps;
  }

  /**
   * The generated series has one point per iteration; it ends at `now` and its
   * timestamps are `intervalMs` apart.
   */
  lemma TimeSeriesTimestamps(sensor: Sensor, numPoints: int, intervalMs: int, r: SeriesDraws, data: seq<Point>)
    requires |r.steps| == Count(numPoints)
    requires data == TimeSeries(sensor, numPoints, intervalMs, r)
    ensures |data| == Count(numPoints)
    ensures forall i :: 0 <= i < |data| ==> data[i].timestamp == SeriesTimestamp(r.now, numPoints, intervalMs, i)
    ensures |data| > 0 ==> data[|data| - 1].timestamp == r.now
    ensures forall i :: 0 < i < |data| ==> data[i].timestamp - data[i - 1].timestamp == intervalMs
  {
    SeriesTimestampsSpaced(r.now, numPoints, intervalMs);
  }

  /**
   * Every generated value lies in the sensor's closed range; the first is within
   * one fluctuation of the start value, and each later one within one
   * fluctuation of its predecessor.
   */
  lemma TimeSeriesValues(sensor: Sensor, numPoints: int, intervalMs: int, r: SeriesDraws, data: seq<Point>)
    requires data == TimeSeries(sensor, numPoints, intervalMs, r)
    ensures forall i :: 0 <= i < |data| ==>
              GetSensorConfig(sensor).min <= data[i].value <= GetSensorConfig(sensor).max
    ensures |data| > 0 ==>
              -GetSensorConfig(sensor).fluctuation <= data[0].value - GetCurrentValue(sensor, r.seed)
              <= GetSensorConfig(sensor).fluctuation
    ensures forall i :: 0 < i < |data| ==>
              -GetSensorConfig(sensor).fluctuation <= data[i].value - data[i - 1].value
              <= GetSensorConfig(sensor).fluctuation
  {
    WalkBoundedAndSmooth(GetSensorConfig(sensor), GetCurrentValue(sensor, r.seed), r.steps);
  }

  // ---------------------------------------------------------------------------
  // The alert list of `generateMockAlerts`
  // ---------------------------------------------------------------------------

  datatype AlertKind = Warning | Critical | Info

  /** `alertTypes`, in declaration order. */
  const AlertKinds: seq<AlertKind> := [Warning, Critical, Info]

  /** An alert; `kind` is the source's `type` field. */
  datatype Alert = Alert(
    id: string,
    timestamp: int,
    kind: AlertKind,
    sensor: Sensor,
    message: string,
    value: real,
    acknowledged: bool)

  /** The draws and the clock reading one iteration of the alert loop consumes. */
  datatype AlertDraws = AlertDraws(kind: Draw, sensor: Draw, now: int, age: Draw, value: Draw, acknowledged: Draw)

  /** `options[Math.floor(Math.random() * options.length)]`. */
  function Pick<T>(options: seq<T>, d: Draw): (x: T)
    requires |options| > 0
    ensures x in options
  {
    ScaledDrawBelow(d, |options| as real);
    options[(d * (|options| as real)).Floor]
  }

  function DigitChar(d: nat): (c: char)
    requires d < 10
    ensures '0' <= c <= '9'
  {
    ('0' as int + d) as char
  }

  /** The decimal text of a natural number, as a template literal renders it. */
  function NatToString(n: nat): (s: string)
    ensures |s| > 0
    ensures forall k :: 0 <= k < |s| ==> '0' <= s[k] <= '9'
  {
    if n < 10 then [DigitChar(n)] else NatToString(n / 10) + [DigitChar(n % 10)]
  }

  /** Reads a string of decimal digits back as a number. */
  function ParseNat(s: string): nat
    requires forall k :: 0 <= k < |s| ==> '0' <= s[k] <= '9'
  {
    if s == [] then 0 else ParseNat(s[..|s| - 1]) * 10 + (s[|s| - 1] as int - '0' as int)
  }

  /** Decimal rendering is undone by parsing, so it loses nothing. */
  lemma {:induction false} ParseNatToString(n: nat)
    ensures ParseNat(NatToString(n)) == n
  {
    if n >= 10 {
      var s := NatToString(n);
      assert s[..|s| - 1] == NatToString(n / 10);
      ParseNatToString(n / 10);
    }
  }

  /** `alert-${i}`. */
  function AlertId(i: nat): string {
    "alert-" + NatToString(i)
  }

  /** Distinct loop indices give distinct alert ids. */
  lemma AlertIdInjective(i: nat, j: nat)
    ensures AlertId(i) == AlertId(j) ==> i == j
  {
    if AlertId(i) == AlertId(j) {
      assert AlertId(i)[6..] == NatToString(i);
      assert AlertId(j)[6..] == NatToString(j);
      ParseNatToString(i);
      ParseNatToString(j);
    }
  }

  function UpperCase(c: char): char {
    if 'a' <= c <= 'z' then (c as int - 32) as char else c
  }

  /** `sensorType.charAt(0).toUpperCase() + sensorType.slice(1)`. */
  function SensorLabel(s: Sensor): string {
    var key := SensorKey(s);
    [UpperCase(key[0])] + key[1..]
  }

  function MessageSuffix(k: AlertKind): string {
    match k
    case Critical => "exceeded critical threshold"
    case Warning => "approaching warning threshold"
    case Info => "returned to normal range"
  }

  /** The alert message: the capitalised sensor key, a space, and a suffix chosen by the kind. */
  function AlertMessage(s: Sensor, k: AlertKind): (m: string)
  {
    SensorLabel(s) + " " + MessageSuffix(k)
  }

  /**
   * The message is the sensor key with its first letter capitalised, a space,
   * and the suffix of the alert type.
   */
  lemma AlertMessageShape(s: Sensor, k: AlertKind)
    ensures |AlertMessage(s, k)| == |SensorKey(s)| + 1 + |MessageSuffix(k)|
    ensures AlertMessage(s, k)[0] == UpperCase(SensorKey(s)[0])
    ensures AlertMessage(s, k)[1..|SensorKey(s)|] == SensorKey(s)[1..]
    ensures AlertMessage(s, k)[|SensorKey(s)|] == ' '
    ensures AlertMessage(s, k)[|SensorKey(s)| + 1..] == MessageSuffix(k)
  {
    var key, name, suffix := SensorKey(s), SensorLabel(s), MessageSuffix(k);
    assert |key| >= 1 && |name| == |key|;
    assert name[0] == UpperCase(key[0]) && name[1..] == key[1..];
    var m := name + " " + suffix;
    assert m[..|name|] == name && m[|name|] == ' ' && m[|name| + 1..] == suffix;
  }

  /** The second letter of the label tells the sensor apart. */
  function SecondLetter(s: Sensor): char {
    match s
    case Temperature => 'e'
    case Turbidity => 'u'
    case Ph => 'h'
  }

  /** The first letter of the suffix tells the kind apart. */
  function FirstSuffixLetter(k: AlertKind): char {
    match k
    case Critical => 'e'
    case Warning => 'a'
    case Info => 'r'
  }

  /** The second letter of a message comes from its sensor. */
  lemma MessageSecondLetter(s: Sensor, k: AlertKind)
    ensures |AlertMessage(s, k)| >= 2 && AlertMessage(s, k)[1] == SecondLetter(s)
  {
    assert |SensorLabel(s)| >= 2 && SensorLabel(s)[1] == SecondLetter(s);
  }

  /** The letter after the space comes from the kind. */
  lemma MessageSuffixLetter(s: Sensor, k: AlertKind)
    ensures |AlertMessage(s, k)| > |SensorLabel(s)| + 1
    ensures AlertMessage(s, k)[|SensorLabel(s)| + 1] == FirstSuffixLetter(k)
  {
    var name, suffix := SensorLabel(s), MessageSuffix(k);
    assert |suffix| >= 1 && suffix[0] == FirstSuffixLetter(k);
    assert (name + " " + suffix)[|name| + 1] == suffix[0];
  }

  /** Different kinds get different messages, whatever the sensors, and so do different sensors. */
  lemma MessageDeterminesKind(s1: Sensor, k1: AlertKind, s2: Sensor, k2: AlertKind)
    ensures AlertMessage(s1, k1) == AlertMessage(s2, k2) ==> k1 == k2 && s1 == s2
  {
    MessageSecondLetter(s1, k1);
    MessageSecondLetter(s2, k2);
    MessageSuffixLetter(s1, k1);
    MessageSuffixLetter(s2, k2);
  }

  /** One iteration of the alert loop: the alert built from draw `d` at index `i`. */
  function MakeAlert(i: nat, d: AlertDraws): (a: Alert)
    ensures a.id == AlertId(i)
  {
    var kind := Pick(AlertKinds, d.kind);
    var sensor := Pick(SensorKeys, d.sensor);
    ScaledDrawBelow(d.age, DAY as real);
    var timestamp := d.now - (d.age * (DAY as real)).Floor;
    Alert(AlertId(i), timestamp, kind, sensor, AlertMessage(sensor, kind),
          GetCurrentValue(sensor, d.value), d.acknowledged > 0.5)
  }

  /**
   * Every field of the alert comes from its draw as the loop body says: a known
   * type and sensor, a timestamp within the last day, a value in the sensor's
   * range, the message of its sensor and type, acknowledged iff the draw exceeds 0.5.
   */
  lemma MakeAlertFields(i: nat, d: AlertDraws)
    ensures MakeAlert(i, d).kind in AlertKinds && MakeAlert(i, d).sensor in SensorKeys
    ensures d.now - DAY < MakeAlert(i, d).timestamp <= d.now
    ensures GetSensorConfig(MakeAlert(i, d).sensor).min <= MakeAlert(i, d).value < GetSensorConfig(MakeAlert(i, d).sensor).max
    ensures MakeAlert(i, d).message == AlertMessage(MakeAlert(i, d).sensor, MakeAlert(i, d).kind)
    ensures MakeAlert(i, d).acknowledged <==> d.acknowledged > 0.5
  {
  }

  predicate NewestFirst(s: seq<Alert>) {
    forall i, j :: 0 <= i < j < |s| ==> s[i].timestamp >= s[j].timestamp
  }

  predicate UniqueIds(s: seq<Alert>) {
    forall i, j :: 0 <= i < j < |s| ==> s[i].id != s[j].id
  }

  /** Inserts `a` before the first alert that is not newer than it, so equal timestamps keep their order. */
  function InsertNewestFirst(a: Alert, s: seq<Alert>): (r: seq<Alert>)
    ensures |r| == |s| + 1
  {
    if s == [] || a.timestamp >= s[0].timestamp then [a] + s
    else [s[0]] + InsertNewestFirst(a, s[1..])
  }

  /** `alerts.sort((a, b) => b.timestamp - a.timestamp)`: a stable sort, newest first. */
  function SortNewestFirst(s: seq<Alert>): (r: seq<Alert>)
    ensures |r| == |s|
  {
    if s == [] then [] else InsertNewestFirst(s[0], SortNewestFirst(s[1..]))
  }

  lemma {:induction false} InsertNewestFirstPermutes(a: Alert, s: seq<Alert>)
    ensures multiset(InsertNewestFirst(a, s)) == multiset(s) + multiset{a}
    ensures forall x :: x in InsertNewestFirst(a, s) <==> x == a || x in s
  {
    if s != [] && a.timestamp < s[0].timestamp {
      InsertNewestFirstPermutes(a, s[1..]);
      assert s == [s[0]] + s[1..];
    }
    var r := InsertNewestFirst(a, s);
    forall x ensures x in r <==> x == a || x in s {
      assert x in r <==> x in multiset(r);
      assert x in s <==> x in multiset(s);
    }
  }

  lemma {:induction false} InsertNewestFirstSorted(a: Alert, s: seq<Alert>)
    requires NewestFirst(s)
    ensures NewestFirst(InsertNewestFirst(a, s))
  {
    if s != [] && a.timestamp < s[0].timestamp {
      var rest := InsertNewestFirst(a, s[1..]);
      InsertNewestFirstSorted(a, s[1..]);
      InsertNewestFirstPermutes(a, s[1..]);
      assert forall x :: x in rest ==> x.timestamp <= s[0].timestamp;
    }
  }

  lemma {:induction false} InsertNewestFirstUniqueIds(a: Alert, s: seq<Alert>)
    requires UniqueIds(s)
    requires forall x :: x in s ==> x.id != a.id
    ensures UniqueIds(InsertNewestFirst(a, s))
  {
    if s != [] && a.timestamp < s[0].timestamp {
      var rest := InsertNewestFirst(a, s[1..]);
      InsertNewestFirstUniqueIds(a, s[1..]);
      InsertNewestFirstPermutes(a, s[1..]);
      assert forall x :: x in rest ==> x.id != s[0].id;
    }
  }

  /** The sort returns a permutation of its input, newest first, and keeps ids unique. */
  lemma {:induction false} SortNewestFirstCorrect(s: seq<Alert>)
    ensures multiset(SortNewestFirst(s)) == multiset(s)
    ensures |SortNewestFirst(s)| == |s|
    ensures forall x :: x in SortNewestFirst(s) <==> x in s
    ensures NewestFirst(SortNewestFirst(s))
    ensures UniqueIds(s) ==> UniqueIds(SortNewestFirst(s))
  {
    if s != [] {
      var rest := SortNewestFirst(s[1..]);
      SortNewestFirstCorrect(s[1..]);
      InsertNewestFirstPermutes(s[0], rest);
      InsertNewestFirstSorted(s[0], rest);
      assert s == [s[0]] + s[1..];
      if UniqueIds(s) {
        assert UniqueIds(s[1..]);
        InsertNewestFirstUniqueIds(s[0], rest);
      }
    }
  }

  /** The alerts of `s` stamped `t`, in their order in `s`. */
  function StampedAt(s: seq<Alert>, t: int): seq<Alert>
    decreases |s|
  {
    if s == [] then []
    else (if s[0].timestamp == t then [s[0]] else []) + StampedAt(s[1..], t)
  }

  /** Insertion puts `a` ahead of the alerts stamped like it and leaves every other timestamp's alerts alone. */
  lemma {:induction false} InsertNewestFirstStable(a: Alert, s: seq<Alert>, t: int)
    ensures StampedAt(InsertNewestFirst(a, s), t) == (if a.timestamp == t then [a] else []) + StampedAt(s, t)
  {
    if s == [] || a.timestamp >= s[0].timestamp {
      assert ([a] + s)[1..] == s;
    } else {
      var rest := InsertNewestFirst(a, s[1..]);
      InsertNewestFirstStable(a, s[1..], t);
      assert ([s[0]] + rest)[1..] == rest;
    }
  }

  /** The sort is stable: the alerts of any one timestamp come out in their input order. */
  lemma {:induction false} SortNewestFirstStable(s: seq<Alert>, t: int)
    ensures StampedAt(SortNewestFirst(s), t) == StampedAt(s, t)
  {
    if s != [] {
      SortNewestFirstStable(s[1..], t);
      InsertNewestFirstStable(s[0], SortNewestFirst(s[1..]), t);
    }
  }

  /** The alerts the loop builds from the first `n` draws, one per index, in index order. */
  function MakeAlerts(draws: seq<AlertDraws>, n: nat): (r: seq<Alert>)
    requires n <= |draws|
    ensures |r| == n
  {
    if n == 0 then [] else MakeAlerts(draws, n - 1) + [MakeAlert(n - 1, draws[n - 1])]
  }

  /** What `generateMockAlerts` returns (reference definition): one alert per draw, sorted newest first. */
  function MockAlerts(draws: seq<AlertDraws>): seq<Alert> {
    SortNewestFirst(MakeAlerts(draws, |draws|))
  }

  /** `generateMockAlerts(count)`. */
  method GenerateMockAlerts(count: int, draws: seq<AlertDraws>) returns (alerts: seq<Alert>)
    requires |draws| == Count(count)
    ensures alerts == MockAlerts(draws)
  {
    var generated: seq<Alert> := [];
    var i := 0;
    while i < count
      invariant 0 <= i <= Count(count)
      invariant generated == MakeAlerts(draws, i)
    {
      generated := generated + [MakeAlert(i, draws[i])];
      i := i + 1;
    }
    alerts := SortNewestFirst(generated);
  }

  /** Alert `j` of the built list is the one built from draw `j`. */
  lemma {:induction false} MakeAlertAt(draws: seq<AlertDraws>, n: nat, j: nat)
    requires j < n <= |draws|
    ensures MakeAlerts(draws, n)[j] == MakeAlert(j, draws[j])
  {
    if j < n - 1 {
      MakeAlertAt(draws, n - 1, j);
    }
  }

  /** The alerts built one per draw have distinct ids. */
  lemma MakeAlertsUnique(draws: seq<AlertDraws>)
    ensures UniqueIds(MakeAlerts(draws, |draws|))
  {
    var generated := MakeAlerts(draws, |draws|);
    forall j, k | 0 <= j < k < |generated| ensures generated[j].id != generated[k].id {
      MakeAlertAt(draws, |draws|, j);
      MakeAlertAt(draws, |draws|, k);
      AlertIdInjective(j, k);
    }
  }

  /**
   * The generated list is a permutation of the alerts built one per draw, with
   * one alert per draw, newest first and with distinct ids.
   */
  lemma MockAlertsCorrect(draws: seq<AlertDraws>)
    ensures multiset(MockAlerts(draws)) == multiset(MakeAlerts(draws, |draws|))
    ensures |MockAlerts(draws)| == |draws|
    ensures NewestFirst(MockAlerts(draws))
    ensures UniqueIds(MockAlerts(draws))
  {
    MakeAlertsUnique(draws);
    SortNewestFirstCorrect(MakeAlerts(draws, |draws|));
  }
}
