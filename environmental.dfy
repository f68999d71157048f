/** The live environmental dashboard of
    src/components/EnvironmentalDashboard.tsx: a window of the 50 most
    recent sensor records, the connection status it mirrors from the
    transport events, the gate that picks the loading, error or dashboard
    view, the chart metric toggles, the metric labels and the oil-spill
    series. Charts and markup are not modelled. */
module Environmental {
  import opened Strings
  import Socket

  datatype AirQuality = AirQuality(co2: real, no2: real, so2: real, pm25: real)

  datatype WaterQuality = WaterQuality(ph: real, dissolvedOxygen: real, oilSpillDetected: bool)

  /** One `environmentalData` payload. */
  datatype EnvironmentalRecord = EnvironmentalRecord(
    id: string,
    timestamp: string,
    airQuality: AirQuality,
    waterQuality: WaterQuality,
    noiseLevel: real,
    temperature: real,
    humidity: real)

  const WindowSize: nat := 50

  // ---------------------------------------------------------------------
  // The record window: `[...prev, data].slice(-50)`

  /** `s.slice(-n)` for `n > 0`: the last `n` elements, or all of `s`. */
  function SliceLast<T>(s: seq<T>, n: nat): (r: seq<T>)
    requires n > 0
    ensures |r| == if |s| < n then |s| else n
    ensures r == s[|s| - |r|..]
  {
    if |s| <= n then s else s[|s| - n..]
  }

  /** The window after one record: `min(old + 1, 50)` long, the newest record
      last, and the rest the most recent old records in arrival order. A
      record whose id is already in the window is appended all the same. */
  function Ingest(window: seq<EnvironmentalRecord>, data: EnvironmentalRecord): (r: seq<EnvironmentalRecord>)
    ensures |r| == (if |window| + 1 < WindowSize then |window| + 1 else WindowSize)
    ensures r[|r| - 1] == data
    ensures r[..|r| - 1] == window[|window| - (|r| - 1)..]
  {
    var s := window + [data];
    var r := SliceLast(s, WindowSize);
    assert r[..|r| - 1] == s[|s| - |r|..|s| - 1];
    assert s[..|s| - 1] == window;
    r
  }

  /** Below capacity a record is simply appended; at capacity exactly the
      oldest record makes room for it. */
  lemma IngestEvictsOldest(window: seq<EnvironmentalRecord>, data: EnvironmentalRecord)
    ensures |window| < WindowSize ==> Ingest(window, data) == window + [data]
    ensures |window| == WindowSize ==> Ingest(window, data) == window[1..] + [data]
  {
    if |window| == WindowSize {
      assert (window + [data])[1..] == window[1..] + [data];
    }
  }

  /** Feeding records one after another. */
  function IngestAll(window: seq<EnvironmentalRecord>, ds: seq<EnvironmentalRecord>): seq<EnvironmentalRecord>
    decreases |ds|
  {
    if ds == [] then window else IngestAll(Ingest(window, ds[0]), ds[1..])
  }

  /** Taking the last n twice is taking them once. */
  lemma SliceLastAppend<T>(a: seq<T>, b: seq<T>, n: nat)
    requires n > 0
    ensures SliceLast(SliceLast(a, n) + b, n) == SliceLast(a + b, n)
  {
    var a' := SliceLast(a, n);
    assert a' + b == (a + b)[|a| - |a'|..];
  }

  /** After any stream of records the window is the last (at most 50) records
      of the old window followed by the stream: never longer than 50, and in
      arrival order. */
  lemma {:induction false} IngestAllIsSuffix(window: seq<EnvironmentalRecord>, ds: seq<EnvironmentalRecord>)
    requires |window| <= WindowSize
    ensures IngestAll(window, ds) == SliceLast(window + ds, WindowSize)
    ensures |IngestAll(window, ds)| <= WindowSize
    decreases |ds|
  {
    if ds == [] {
      assert window + ds == window;
    } else {
      var w' := SliceLast(window + [ds[0]], WindowSize);
      assert IngestAll(window, ds) == IngestAll(w', ds[1..]) by {
        assert Ingest(window, ds[0]) == w';
      }
      IngestAllIsSuffix(w', ds[1..]);
      SliceLastAppend(window + [ds[0]], ds[1..], WindowSize);
      assert window + [ds[0]] + ds[1..] == window + ds;
    }
  }

  // ---------------------------------------------------------------------
  // Metric toggles

  const AirMetrics: seq<string> := ["co2", "no2", "pm25", "so2"]
  const EnvMetrics: seq<string> := ["temperature", "humidity", "noise_level"]

  /** `prev.filter(m => m !== metric)` */
  function Without(s: seq<string>, metric: string): (r: seq<string>)
    ensures forall x :: x in r <==> x in s && x != metric
    ensures |r| <= |s|
  {
    if s == [] then []
    else (if s[0] == metric then [] else [s[0]]) + Without(s[1..], metric)
  }

  /** `toggleAirMetric` / `toggleEnvMetric`: drop the metric if selected,
      append it otherwise. A toggle flips the toggled metric's membership;
      ignoring that metric, the selection is unchanged (the other metrics
      keep membership and order); a newly selected metric goes last. */
  function Toggle(selected: seq<string>, metric: string): (r: seq<string>)
    ensures metric in r <==> metric !in selected
    ensures Without(r, metric) == Without(selected, metric)
    ensures metric !in selected ==> r == selected + [metric]
  {
    if metric in selected then
      WithoutTwice(selected, metric);
      Without(selected, metric)
    else
      WithoutAppend(selected, [metric], metric);
      WithoutIdle(selected, metric);
      assert Without([metric], metric) == [];
      selected + [metric]
  }

  lemma {:induction false} WithoutAppend(a: seq<string>, b: seq<string>, metric: string)
    ensures Without(a + b, metric) == Without(a, metric) + Without(b, metric)
  {
    if a == [] {
      assert a + b == b;
    } else {
      assert (a + b)[0] == a[0] && (a + b)[1..] == a[1..] + b;
      WithoutAppend(a[1..], b, metric);
    }
  }

  lemma {:induction false} WithoutIdle(s: seq<string>, metric: string)
    requires metric !in s
    ensures Without(s, metric) == s
  {
    if s != [] {
      WithoutIdle(s[1..], metric);
    }
  }

  lemma {:induction false} WithoutTwice(s: seq<string>, metric: string)
    ensures Without(Without(s, metric), metric) == Without(s, metric)
  {
    WithoutIdle(Without(s, metric), metric);
  }

  /** Selecting and then deselecting a metric restores the selection. */
  lemma ToggleTwiceRestores(selected: seq<string>, metric: string)
    requires metric !in selected
    ensures Toggle(Toggle(selected, metric), metric) == selected
  {
    WithoutAppend(selected, [metric], metric);
    WithoutIdle(selected, metric);
    assert Without([metric], metric) == [];
  }

  // ---------------------------------------------------------------------
  // Metric labels: `metric.split("_").map(capitalise).join(" ")`

  /** `word.charAt(0).toUpperCase() + word.slice(1)` */
  function Capitalize(word: string): string {
    if word == [] then [] else [UpperChar(word[0])] + word[1..]
  }

  function CapitalizeAll(words: seq<string>): (r: seq<string>)
    ensures |r| == |words|
  {
    seq(|words|, i requires 0 <= i < |words| => Capitalize(words[i]))
  }

  /** The label has the metric's length: every `_` becomes a space, and the
      first letter of each word is upper-cased. */
  function FormatLabel(metric: string): (r: string)
    ensures |r| == |metric|
    ensures forall i :: 0 <= i < |metric| ==> r[i] == LabelChar(metric, i)
  {
    LabelPointwise(metric);
    Words(metric)
  }

  /** `metric.split("_").map(capitalise).join(" ")`, before anything is
      known about it. */
  function Words(metric: string): string {
    Join(CapitalizeAll(Split(metric, '_')), " ")
  }

  /** The label's character at position `i` of a metric name. */
  function LabelChar(metric: string, i: nat): char
    requires i < |metric|
  {
    if metric[i] == '_' then ' '
    else if i == 0 || metric[i - 1] == '_' then UpperChar(metric[i])
    else metric[i]
  }

  /** The words of a metric name, capitalised and joined, character by
      character. */
  lemma {:induction false} LabelPointwise(metric: string)
    ensures |Words(metric)| == |metric|
    ensures forall i :: 0 <= i < |metric| ==> Words(metric)[i] == LabelChar(metric, i)
    decreases |metric|
  {
    match IndexOf(metric, '_')
    case None =>
      assert Words(metric) == Capitalize(metric);
    case Some(k) =>
      var head, tail := metric[..k], metric[k + 1..];
      LabelCons(metric, k);
      LabelPointwise(tail);
      var text := Words(metric);
      var rest := Words(tail);
      var cap := Capitalize(head);
      assert |cap| == k;
      assert text == cap + " " + rest;
      forall i | 0 <= i < |metric| ensures text[i] == LabelChar(metric, i) {
        if i < k {
          assert text[i] == cap[i];
          assert metric[i] == head[i];
          if i > 0 {
            assert metric[i - 1] == head[i - 1];
          }
        } else if i == k {
          assert text[i] == ' ';
        } else {
          assert text[i] == rest[i - k - 1];
          assert LabelChar(tail, i - k - 1) == LabelChar(metric, i);
        }
      }
  }

  /** Up to the first `_` the label is the capitalised first word; after it
      comes a space and the label of the rest. */
  lemma LabelCons(metric: string, k: nat)
    requires IndexOf(metric, '_') == Some(k)
    ensures Words(metric) == Capitalize(metric[..k]) + " " + Words(metric[k + 1..])
  {
    var head, tail := metric[..k], metric[k + 1..];
    var ws := Split(tail, '_');
    assert Split(metric, '_') == [head] + ws;
    var cs := CapitalizeAll([head] + ws);
    assert cs == [Capitalize(head)] + CapitalizeAll(ws);
    assert cs[1..] == CapitalizeAll(ws);
  }

  /** The button for `noise_level` reads "Noise Level". */
  lemma NoiseLevelLabel()
    ensures FormatLabel("noise_level") == "Noise Level"
  {
    var m := "noise_level";
    forall i | 0 <= i < |m| ensures LabelChar(m, i) == "Noise Level"[i] {
      if i == 0 {
        assert UpperChar('n') == 'N';
      } else if i == 6 {
        assert UpperChar('l') == 'L';
      }
    }
    LabelIs(m, "Noise Level");
  }

  lemma LabelIs(metric: string, expected: string)
    requires |expected| == |metric|
    requires forall i :: 0 <= i < |metric| ==> LabelChar(metric, i) == expected[i]
    ensures FormatLabel(metric) == expected
  {
  }

  // ---------------------------------------------------------------------
  // Oil-spill series

  /** The oil-spill chart series: 1 for a detected spill, 0 otherwise. */
  function OilSpillSeries(records: seq<EnvironmentalRecord>): seq<int> {
    seq(|records|, i requires 0 <= i < |records| => if records[i].waterQuality.oilSpillDetected then 1 else 0)
  }

  /** The series has one point per record, each 0 or 1, and a point is 1
      exactly where a spill was detected; the sum counts the detections. */
  lemma {:induction false} OilSpillSeriesMeaning(records: seq<EnvironmentalRecord>)
    ensures |OilSpillSeries(records)| == |records|
    ensures forall i :: 0 <= i < |records| ==>
      (OilSpillSeries(records)[i] == 1 <==> records[i].waterQuality.oilSpillDetected) &&
      (OilSpillSeries(records)[i] == 0 || OilSpillSeries(records)[i] == 1)
    ensures Sum(OilSpillSeries(records)) == Detections(records)
  {
    if records != [] {
      OilSpillSeriesMeaning(records[1..]);
      assert OilSpillSeries(records)[1..] == OilSpillSeries(records[1..]);
    }
  }

  function Sum(s: seq<int>): int {
    if s == [] then 0 else s[0] + Sum(s[1..])
  }

  /** How many records report a spill. */
  function Detections(records: seq<EnvironmentalRecord>): nat {
    if records == [] then 0
    else (if records[0].waterQuality.oilSpillDetected then 1 else 0) + Detections(records[1..])
  }

  // ---------------------------------------------------------------------
  // Connection status and the view gate

  /** The status each of the dashboard's own handlers sets (the messages are
      spelled out again in the component). */
  function DashboardStatusAfter(ev: Socket.TransportEvent): Socket.ConnectionStatus {
    match ev
    case Connect => Socket.ConnectionStatus(true, None)
    case Disconnect => Socket.ConnectionStatus(false, Some("Server connection lost. Please try again later."))
    case ConnectError => Socket.ConnectionStatus(false, Some("Server is down. Please try again later."))
  }

  /** The dashboard's copy of the status agrees with the service's own for
      every event. */
  lemma DashboardMirrorsService(ev: Socket.TransportEvent)
    ensures DashboardStatusAfter(ev) == Socket.StatusAfter(ev)
  {
  }

  /** `initialStatus.isConnected || initialStatus.error !== null` */
  function InitialFlag(status: Socket.ConnectionStatus): bool {
    status.isConnected || status.error.Some?
  }

  datatype View = Connecting | ErrorPage(message: string) | Dashboard

  /** Which view renders: the spinner until initialised, then the error page
      while disconnected with a message, otherwise the dashboard. */
  function Gate(initialised: bool, status: Socket.ConnectionStatus): (v: View)
    ensures v.Connecting? <==> !initialised
    ensures v.ErrorPage? <==> initialised && !status.isConnected && status.error.Some? && status.error.value != ""
    ensures v.ErrorPage? ==> v.message == status.error.value
    ensures v.Dashboard? <==> initialised && (status.isConnected || status.error.None? || status.error.value == "")
  {
    if !initialised then Connecting
    else if !status.isConnected && status.error.Some? && status.error.value != "" then ErrorPage(status.error.value)
    else Dashboard
  }

  /** Any consistent service status read at mount time leads to the view its
      flag says: the dashboard when connected, the error page when a failure
      was reported, the spinner when nothing has happened yet. */
  lemma MountView(s: Socket.ServiceState)
    requires Socket.Consistent(s)
    ensures var st := Socket.ConnectionStatus(s.isConnected, s.error);
      && (s.isConnected ==> Gate(InitialFlag(st), st) == Dashboard)
      && (s.error.Some? ==> Gate(InitialFlag(st), st) == ErrorPage(s.error.value))
      && (!s.isConnected && s.error.None? ==> Gate(InitialFlag(st), st) == Connecting)
  {
  }

  /** The dashboard component's state. */
  class Dashboard {
    var records: seq<EnvironmentalRecord>
    var selectedAirMetrics: seq<string>
    var selectedEnvMetrics: seq<string>
    var progress: Option<EnvironmentalRecord>
    var connectionStatus: Socket.ConnectionStatus
    var isSocketInitialized: bool
    /** Every reading received so far, oldest first. */
    ghost var received: seq<EnvironmentalRecord>

    /** The window is always the last 50 readings received. */
    ghost predicate Valid()
      reads this
    {
      records == SliceLast(received, WindowSize)
    }

    constructor ()
      ensures Valid()
      ensures records == [] && received == [] && progress.None? && !isSocketInitialized
      ensures selectedAirMetrics == AirMetrics && selectedEnvMetrics == EnvMetrics
      ensures connectionStatus == Socket.ConnectionStatus(false, None)
    {
      records := [];
      received := [];
      selectedAirMetrics := AirMetrics;
      selectedEnvMetrics := EnvMetrics;
      progress := None;
      connectionStatus := Socket.ConnectionStatus(false, None);
      isSocketInitialized := false;
      new;
      assert SliceLast(received, WindowSize) == [];
    }

    /** The view the component renders now. */
    function CurrentView(): View
      reads this
    {
      Gate(isSocketInitialized, connectionStatus)
    }

    /** The mount effect: copy the service's status and derive the flag. */
    method Mount(initial: Socket.ConnectionStatus)
      requires Valid()
      modifies this`connectionStatus, this`isSocketInitialized
      ensures Valid()
      ensures connectionStatus == initial
      ensures isSocketInitialized == (initial.isConnected || initial.error.Some?)
    {
      connectionStatus := initial;
      isSocketInitialized := InitialFlag(initial);
    }

    /** `handleConnect`, `handleDisconnect`, `handleConnectError`: each sets
        its status and marks the dashboard initialised. */
    method HandleStatusEvent(ev: Socket.TransportEvent)
      requires Valid()
      modifies this`connectionStatus, this`isSocketInitialized
      ensures Valid()
      ensures connectionStatus == DashboardStatusAfter(ev) && isSocketInitialized
      ensures ev == Socket.Connect ==> CurrentView() == Dashboard
      ensures ev != Socket.Connect ==> CurrentView() == ErrorPage(connectionStatus.error.value)
    {
      connectionStatus := DashboardStatusAfter(ev);
      isSocketInitialized := true;
    }

    /** `handleEnvironmentalData`: the record joins the window and becomes
        the latest reading. */
    method HandleEnvironmentalData(data: EnvironmentalRecord)
      requires Valid()
      modifies this`records, this`progress, this`received
      ensures Valid()
      ensures records == Ingest(old(records), data)
      ensures received == old(received) + [data]
      ensures progress == Some(data)
    {
      SliceLastAppend(received, [data], WindowSize);
      records := SliceLast(records + [data], WindowSize);
      received := received + [data];
      progress := Some(data);
    }

    method ToggleAirMetric(metric: string)
      requires Valid()
      modifies this`selectedAirMetrics
      ensures Valid()
      ensures selectedAirMetrics == Toggle(old(selectedAirMetrics), metric)
    {
      if metric in selectedAirMetrics {
        selectedAirMetrics := Without(selectedAirMetrics, metric);
      } else {
        selectedAirMetrics := selectedAirMetrics + [metric];
      }
    }

    method ToggleEnvMetric(metric: string)
      requires Valid()
      modifies this`selectedEnvMetrics
      ensures Valid()
      ensures selectedEnvMetrics == Toggle(old(selectedEnvMetrics), metric)
    {
      if metric in selectedEnvMetrics {
        selectedEnvMetrics := Without(selectedEnvMetrics, metric);
      } else {
        selectedEnvMetrics := selectedEnvMetrics + [metric];
      }
    }
  }
}
