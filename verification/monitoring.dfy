/** The client-side telemetry collector: a process-wide object holding three
    append-only queues (error reports, performance metrics, user
    interactions) that are flushed, by snapshot-and-clear, to
    `{endpoint}/errors`, `{endpoint}/metrics` and `{endpoint}/interactions`,
    or all at once to `{endpoint}/all` through the page-unload beacon.

    The browser is an explicit environment: whether a window exists, page
    visibility, whether `navigator.sendBeacon` exists, development mode, the
    page URL and the user agent. What the collector sends or logs is recorded
    in order in `outbox`. Deferred callbacks (the idle-time `initWhenIdle`,
    the deferred `initialize()` of `initMonitoring`, the interval timer and
    the event listeners) are methods the environment calls. */
module Monitoring {
  import opened Util

  /** `batchSize`: the error queue is flushed when it reaches this length. */
  const BatchSize: nat := 20
  /** The default `endpoint`. */
  const DefaultEndpoint: string := "/api/monitoring"

  datatype ErrorReport = ErrorReport(message: string, stack: Option<string>, url: string, timestamp: string, userAgent: string)
  datatype PerformanceMetric = PerformanceMetric(name: string, value: real, url: string, timestamp: string)
  datatype UserInteraction = UserInteraction(interactionType: string, element: string, url: string, timestamp: string)

  datatype Queues = Queues(errors: seq<ErrorReport>, metrics: seq<PerformanceMetric>, interactions: seq<UserInteraction>)

  function EmptyQueues(): Queues {
    Queues([], [], [])
  }

  predicate AnyQueued(q: Queues) {
    |q.errors| > 0 || |q.metrics| > 0 || |q.interactions| > 0
  }

  /** A request body: one queue's batch, or the combined object sent to `/all`. */
  datatype Payload =
    | ErrorBatch(errors: seq<ErrorReport>)
    | MetricBatch(metrics: seq<PerformanceMetric>)
    | InteractionBatch(interactions: seq<UserInteraction>)
    | Combined(all: Queues)

  /** Debug-mode console lines (`[Monitoring] ...`). */
  datatype LogLine =
    | ErrorTracked(report: ErrorReport)
    | MetricTracked(metric: PerformanceMetric)
    | InteractionTracked(interaction: UserInteraction)
    | WouldSend(url: string, payload: Payload)

  /** What the collector does to the outside world. */
  datatype Effect =
    | Fetch(url: string, body: Payload)     // keepalive POST, failures ignored
    | Beacon(url: string, body: Payload)    // navigator.sendBeacon
    | Console(line: LogLine)                // console.log in debug mode

  /** The browser, as the collector observes it. */
  datatype Env = Env(hasWindow: bool, visible: bool, beaconAvailable: bool, development: bool, href: string, userAgent: string)

  /** The two settings that shape what a flush produces. */
  datatype Settings = Settings(endpoint: string, debug: bool)

  /** The queues after an operation and what it sent or logged, in order. */
  datatype Step = Step(queues: Queues, effects: seq<Effect>)

  // ---------------------------------------------------------------------
  // The collector's behaviour as functions of the queues and settings.
  // ---------------------------------------------------------------------

  /** `log`: a console line only in debug mode. */
  function LogIf(debug: bool, line: LogLine): seq<Effect> {
    if debug then [Console(line)] else []
  }

  function PayloadSize(p: Payload): nat {
    match p
    case ErrorBatch(e) => |e|
    case MetricBatch(m) => |m|
    case InteractionBatch(i) => |i|
    case Combined(q) => |q.errors| + |q.metrics| + |q.interactions|
  }

  /** `sendToServer`: in development a debug line instead of a request;
      otherwise a fetch, unless the batch is empty. */
  function SendEffects(s: Settings, development: bool, path: string, data: Payload): seq<Effect> {
    if development then LogIf(s.debug, WouldSend(s.endpoint + path, data))
    else if PayloadSize(data) == 0 then []
    else [Fetch(s.endpoint + path, data)]
  }

  /** `flushErrors`: snapshot the queue, clear it, then send the snapshot. */
  function FlushErrorsStep(q: Queues, s: Settings, development: bool): Step {
    if |q.errors| == 0 then Step(q, [])
    else Step(q.(errors := []), SendEffects(s, development, "/errors", ErrorBatch(q.errors)))
  }

  /** `flushMetrics` */
  function FlushMetricsStep(q: Queues, s: Settings, development: bool): Step {
    if |q.metrics| == 0 then Step(q, [])
    else Step(q.(metrics := []), SendEffects(s, development, "/metrics", MetricBatch(q.metrics)))
  }

  /** `flushInteractions` */
  function FlushInteractionsStep(q: Queues, s: Settings, development: bool): Step {
    if |q.interactions| == 0 then Step(q, [])
    else Step(q.(interactions := []), SendEffects(s, development, "/interactions", InteractionBatch(q.interactions)))
  }

  /** The three per-queue flushes in the order errors, metrics, interactions. */
  function StandardFlushStep(q: Queues, s: Settings, development: bool): Step {
    var a := FlushErrorsStep(q, s, development);
    var b := FlushMetricsStep(a.queues, s, development);
    var c := FlushInteractionsStep(b.queues, s, development);
    Step(c.queues, a.effects + b.effects + c.effects)
  }

  /** `flushWithBeacon`: without `sendBeacon` the standard flush; otherwise
      one beacon to `/all` carrying all three queues, if any holds data.
      The beacon is sent in development mode too. */
  function BeaconFlushStep(q: Queues, s: Settings, env: Env): Step {
    if !env.beaconAvailable then StandardFlushStep(q, s, env.development)
    else if AnyQueued(q) then Step(EmptyQueues(), [Beacon(s.endpoint + "/all", Combined(q))])
    else Step(q, [])
  }

  /** `flushAll`: the beacon path when the page is hidden, else the standard flush. */
  function FlushAllStep(q: Queues, s: Settings, env: Env): Step {
    if !env.visible then BeaconFlushStep(q, s, env) else StandardFlushStep(q, s, env.development)
  }

  /** The report `trackError` builds. */
  function MakeErrorReport(message: string, stack: Option<string>, now: string, env: Env): ErrorReport {
    ErrorReport(message, stack, if env.hasWindow then env.href else "", now, if env.hasWindow then env.userAgent else "")
  }

  /** The queue part of `trackError`: append, log, and flush the error
      queue once it reaches the batch size. */
  function TrackErrorStep(q: Queues, s: Settings, development: bool, report: ErrorReport): Step {
    var q1 := q.(errors := q.errors + [report]);
    var logged := LogIf(s.debug, ErrorTracked(report));
    if |q1.errors| >= BatchSize then
      var f := FlushErrorsStep(q1, s, development);
      Step(f.queues, logged + f.effects)
    else Step(q1, logged)
  }

  /** `trackError` applied to each report in turn. */
  function TrackErrorsStep(q: Queues, s: Settings, development: bool, reports: seq<ErrorReport>): Step
    decreases |reports|
  {
    if reports == [] then Step(q, [])
    else
      var first := TrackErrorStep(q, s, development, reports[0]);
      var rest := TrackErrorsStep(first.queues, s, development, reports[1..]);
      Step(rest.queues, first.effects + rest.effects)
  }

  /** `trackMetric` once initialized: append and log; never flushes. */
  function TrackMetricStep(q: Queues, s: Settings, metric: PerformanceMetric): Step {
    Step(q.(metrics := q.metrics + [metric]), LogIf(s.debug, MetricTracked(metric)))
  }

  /** `trackInteraction` once initialized: append and log; never flushes. */
  function TrackInteractionStep(q: Queues, s: Settings, interaction: UserInteraction): Step {
    Step(q.(interactions := q.interactions + [interaction]), LogIf(s.debug, InteractionTracked(interaction)))
  }

  /** The records that requests (fetches and beacons) carried, per kind,
      in the order sent. Debug lines carry nothing to the server. */
  function Delivered(effects: seq<Effect>): Queues {
    if effects == [] then EmptyQueues()
    else Concat(CarriedBy(effects[0]), Delivered(effects[1..]))
  }

  /** The records one effect carries to the server. */
  function CarriedBy(e: Effect): Queues {
    match e
    case Fetch(_, body) => Carried(body)
    case Beacon(_, body) => Carried(body)
    case Console(_) => EmptyQueues()
  }

  function Carried(p: Payload): Queues {
    match p
    case ErrorBatch(e) => Queues(e, [], [])
    case MetricBatch(m) => Queues([], m, [])
    case InteractionBatch(i) => Queues([], [], i)
    case Combined(q) => q
  }

  function Concat(a: Queues, b: Queues): Queues {
    Queues(a.errors + b.errors, a.metrics + b.metrics, a.interactions + b.interactions)
  }

  /** Requests among the effects (debug lines excluded). */
  function Requests(effects: seq<Effect>): seq<Effect> {
    Filter(effects, IsRequest)
  }

  predicate IsRequest(e: Effect) {
    !e.Console?
  }

  lemma RequestsAppend(a: seq<Effect>, b: seq<Effect>)
    ensures Requests(a + b) == Requests(a) + Requests(b)
  {
    FilterAppend(a, b, IsRequest);
  }

  // ---------------------------------------------------------------------
  // Properties of the flush and enqueue rules.
  // ---------------------------------------------------------------------

  lemma {:induction false} DeliveredAppend(e1: seq<Effect>, e2: seq<Effect>)
    ensures Delivered(e1 + e2) == Concat(Delivered(e1), Delivered(e2))
  {
    if e1 == [] {
      assert e1 + e2 == e2;
    } else {
      assert (e1 + e2)[1..] == e1[1..] + e2;
      assert (e1 + e2)[0] == e1[0];
      DeliveredAppend(e1[1..], e2);
      var a, b, c := CarriedBy(e1[0]), Delivered(e1[1..]), Delivered(e2);
      assert a.errors + (b.errors + c.errors) == (a.errors + b.errors) + c.errors;
      assert a.metrics + (b.metrics + c.metrics) == (a.metrics + b.metrics) + c.metrics;
      assert a.interactions + (b.interactions + c.interactions) == (a.interactions + b.interactions) + c.interactions;
    }
  }

  lemma {:induction false} DeliveredLogsOnly(effects: seq<Effect>)
    requires forall i :: 0 <= i < |effects| ==> effects[i].Console?
    ensures Delivered(effects) == EmptyQueues()
  {
    if effects != [] {
      DeliveredLogsOnly(effects[1..]);
    }
  }

  /** A per-queue flush empties its own queue, leaves the other two alone,
      and sends nothing for an empty queue. In production a non-empty queue
      goes out as exactly one request, the whole queue in insertion order;
      in development at most a debug line is produced and no request. */
  lemma FlushErrorsIsolated(q: Queues, s: Settings, development: bool)
    ensures FlushErrorsStep(q, s, development).queues == q.(errors := [])
    ensures |q.errors| == 0 ==> FlushErrorsStep(q, s, development).effects == []
    ensures !development && |q.errors| > 0 ==>
              FlushErrorsStep(q, s, development).effects == [Fetch(s.endpoint + "/errors", ErrorBatch(q.errors))]
    ensures development ==> Requests(FlushErrorsStep(q, s, development).effects) == []
  {
  }

  lemma FlushMetricsIsolated(q: Queues, s: Settings, development: bool)
    ensures FlushMetricsStep(q, s, development).queues == q.(metrics := [])
    ensures |q.metrics| == 0 ==> FlushMetricsStep(q, s, development).effects == []
    ensures !development && |q.metrics| > 0 ==>
              FlushMetricsStep(q, s, development).effects == [Fetch(s.endpoint + "/metrics", MetricBatch(q.metrics))]
    ensures development ==> Requests(FlushMetricsStep(q, s, development).effects) == []
  {
  }

  lemma FlushInteractionsIsolated(q: Queues, s: Settings, development: bool)
    ensures FlushInteractionsStep(q, s, development).queues == q.(interactions := [])
    ensures |q.interactions| == 0 ==> FlushInteractionsStep(q, s, development).effects == []
    ensures !development && |q.interactions| > 0 ==>
              FlushInteractionsStep(q, s, development).effects ==
                [Fetch(s.endpoint + "/interactions", InteractionBatch(q.interactions))]
    ensures development ==> Requests(FlushInteractionsStep(q, s, development).effects) == []
  {
  }

  /** In production the standard flush sends one request per non-empty
      queue, in the order errors, metrics, interactions, and nothing else. */
  lemma StandardFlushRequests(q: Queues, s: Settings)
    ensures StandardFlushStep(q, s, false).queues == EmptyQueues()
    ensures StandardFlushStep(q, s, false).effects ==
              (if |q.errors| > 0 then [Fetch(s.endpoint + "/errors", ErrorBatch(q.errors))] else []) +
              (if |q.metrics| > 0 then [Fetch(s.endpoint + "/metrics", MetricBatch(q.metrics))] else []) +
              (if |q.interactions| > 0 then [Fetch(s.endpoint + "/interactions", InteractionBatch(q.interactions))] else [])
  {
    FlushErrorsIsolated(q, s, false);
    FlushMetricsIsolated(q.(errors := []), s, false);
    FlushInteractionsIsolated(q.(errors := [], metrics := []), s, false);
  }

  /** The beacon path with `sendBeacon` available: one beacon to `/all`
      carrying all three queues when any holds data, after which all three
      are empty; nothing at all when all are empty. */
  lemma BeaconFlushSingleSend(q: Queues, s: Settings, env: Env)
    requires env.beaconAvailable
    ensures AnyQueued(q) ==> BeaconFlushStep(q, s, env) == Step(EmptyQueues(), [Beacon(s.endpoint + "/all", Combined(q))])
    ensures !AnyQueued(q) ==> BeaconFlushStep(q, s, env) == Step(q, [])
  {
  }

  /** Without `sendBeacon` the beacon path is exactly the standard flush. */
  lemma BeaconFallback(q: Queues, s: Settings, env: Env)
    requires !env.beaconAvailable
    ensures BeaconFlushStep(q, s, env) == StandardFlushStep(q, s, env.development)
  {
  }

  lemma StandardFlushClears(q: Queues, s: Settings, development: bool)
    ensures StandardFlushStep(q, s, development).queues == EmptyQueues()
  {
  }

  /** Records are never re-queued: after `flushAll` every queue is empty,
      whatever the path. Each record is handed to the network at most once:
      in production, or on the beacon path, the requests carry every queued
      record exactly once, in order; in development the standard path drops
      the records, having produced at most debug lines. */
  lemma {:induction false} FlushAllAtMostOnce(q: Queues, s: Settings, env: Env)
    ensures FlushAllStep(q, s, env).queues == EmptyQueues()
    ensures !env.development ==> Delivered(FlushAllStep(q, s, env).effects) == q
    ensures !env.visible && env.beaconAvailable ==> Delivered(FlushAllStep(q, s, env).effects) == q
    ensures env.development && (env.visible || !env.beaconAvailable) ==>
              Delivered(FlushAllStep(q, s, env).effects) == EmptyQueues()
  {
    if !env.visible && env.beaconAvailable {
      if AnyQueued(q) {
        var r := FlushAllStep(q, s, env);
        assert r.effects == [Beacon(s.endpoint + "/all", Combined(q))];
        assert Delivered(r.effects) == Concat(q, Delivered([]));
      } else {
        assert q == EmptyQueues();
      }
    } else {
      StandardFlushDelivered(q, s, env.development);
    }
  }

  /** What the standard flush hands to the network: every queued record, in
      order, in production; nothing in development. */
  lemma {:induction false} StandardFlushDelivered(q: Queues, s: Settings, development: bool)
    ensures StandardFlushStep(q, s, development).queues == EmptyQueues()
    ensures Delivered(StandardFlushStep(q, s, development).effects) == if development then EmptyQueues() else q
  {
    var a := FlushErrorsStep(q, s, development);
    var b := FlushMetricsStep(q.(errors := []), s, development);
    var c := FlushInteractionsStep(q.(errors := [], metrics := []), s, development);
    FlushErrorsIsolated(q, s, development);
    FlushMetricsIsolated(q.(errors := []), s, development);
    assert StandardFlushStep(q, s, development).effects == a.effects + b.effects + c.effects;
    DeliveredAppend(a.effects, b.effects);
    DeliveredAppend(a.effects + b.effects, c.effects);
    SingleFlushDelivered(q, s, development);
    ConcatParts(q, development);
  }

  /** The three per-queue deliveries put back together. */
  lemma ConcatParts(q: Queues, development: bool)
    ensures Concat(Concat(if development then EmptyQueues() else Queues(q.errors, [], []),
                          if development then EmptyQueues() else Queues([], q.metrics, [])),
                   if development then EmptyQueues() else Queues([], [], q.interactions))
            == if development then EmptyQueues() else q
  {
    assert q.errors + [] + [] == q.errors;
    assert [] + q.metrics + [] == q.metrics;
    assert [] + [] + q.interactions == q.interactions;
  }

  /** What each per-queue flush hands to the network. */
  lemma SingleFlushDelivered(q: Queues, s: Settings, development: bool)
    ensures Delivered(FlushErrorsStep(q, s, development).effects) ==
              if development then EmptyQueues() else Queues(q.errors, [], [])
    ensures Delivered(FlushMetricsStep(q.(errors := []), s, development).effects) ==
              if development then EmptyQueues() else Queues([], q.metrics, [])
    ensures Delivered(FlushInteractionsStep(q.(errors := [], metrics := []), s, development).effects) ==
              if development then EmptyQueues() else Queues([], [], q.interactions)
  {
    var a := FlushErrorsStep(q, s, development).effects;
    var b := FlushMetricsStep(q.(errors := []), s, development).effects;
    var c := FlushInteractionsStep(q.(errors := [], metrics := []), s, development).effects;
    if development {
      DeliveredLogsOnly(a);
      DeliveredLogsOnly(b);
      DeliveredLogsOnly(c);
    } else {
      if |q.errors| > 0 { assert Delivered(a) == Concat(Carried(ErrorBatch(q.errors)), Delivered([])); }
      if |q.metrics| > 0 { assert Delivered(b) == Concat(Carried(MetricBatch(q.metrics)), Delivered([])); }
      if |q.interactions| > 0 { assert Delivered(c) == Concat(Carried(InteractionBatch(q.interactions)), Delivered([])); }
    }
  }

  /** A second `flushAll` right after the first sends and changes nothing. */
  lemma FlushAllIdempotent(q: Queues, s: Settings, env: Env)
    ensures FlushAllStep(FlushAllStep(q, s, env).queues, s, env) == Step(EmptyQueues(), [])
  {
    StandardFlushClears(q, s, env.development);
  }

  /** `trackError` always enqueues; the error queue never reaches the batch
      size afterwards, and it is flushed exactly when it reaches it. The
      other two queues are untouched. */
  lemma TrackErrorBelowBatch(q: Queues, s: Settings, development: bool, report: ErrorReport)
    ensures |TrackErrorStep(q, s, development, report).queues.errors| < BatchSize
    ensures TrackErrorStep(q, s, development, report).queues.metrics == q.metrics
    ensures TrackErrorStep(q, s, development, report).queues.interactions == q.interactions
    ensures |q.errors| + 1 < BatchSize ==>
              TrackErrorStep(q, s, development, report) == Step(q.(errors := q.errors + [report]), LogIf(s.debug, ErrorTracked(report)))
    ensures |q.errors| + 1 >= BatchSize && !development ==>
              TrackErrorStep(q, s, development, report).queues.errors == [] &&
              Requests(TrackErrorStep(q, s, development, report).effects) ==
                [Fetch(s.endpoint + "/errors", ErrorBatch(q.errors + [report]))]
  {
    var q1 := q.(errors := q.errors + [report]);
    if |q1.errors| >= BatchSize && !development {
      var logged := LogIf(s.debug, ErrorTracked(report));
      var f := FlushErrorsStep(q1, s, development);
      RequestsAppend(logged, f.effects);
    }
  }

  /** Below the threshold, successive errors only accumulate (in debug mode a
      line each, and no request). */
  lemma TrackErrorsAccumulate(q: Queues, s: Settings, development: bool, reports: seq<ErrorReport>)
    requires |q.errors| + |reports| < BatchSize
    ensures TrackErrorsStep(q, s, development, reports).queues == q.(errors := q.errors + reports)
    ensures Requests(TrackErrorsStep(q, s, development, reports).effects) == []
  {
    TrackErrorsQueued(q, s, development, reports);
    TrackErrorsNoRequest(q, s, development, reports);
  }

  lemma {:induction false} TrackErrorsQueued(q: Queues, s: Settings, development: bool, reports: seq<ErrorReport>)
    requires |q.errors| + |reports| < BatchSize
    decreases |reports|
    ensures TrackErrorsStep(q, s, development, reports).queues == q.(errors := q.errors + reports)
  {
    if reports != [] {
      var q1 := q.(errors := q.errors + [reports[0]]);
      TrackErrorsFirstNoFlush(q, s, development, reports);
      TrackErrorsQueued(q1, s, development, reports[1..]);
      assert q.errors + [reports[0]] + reports[1..] == q.errors + reports;
    }
  }

  lemma {:induction false} TrackErrorsNoRequest(q: Queues, s: Settings, development: bool, reports: seq<ErrorReport>)
    requires |q.errors| + |reports| < BatchSize
    decreases |reports|
    ensures Requests(TrackErrorsStep(q, s, development, reports).effects) == []
  {
    if reports != [] {
      var q1 := q.(errors := q.errors + [reports[0]]);
      TrackErrorsFirstNoFlush(q, s, development, reports);
      TrackErrorsNoRequest(q1, s, development, reports[1..]);
      var rest := TrackErrorsStep(q1, s, development, reports[1..]);
      RequestsAppend(LogIf(s.debug, ErrorTracked(reports[0])), rest.effects);
    }
  }

  /** The first of several reports, below the batch size, is only enqueued. */
  lemma TrackErrorsFirstNoFlush(q: Queues, s: Settings, development: bool, reports: seq<ErrorReport>)
    requires reports != [] && |q.errors| + 1 < BatchSize
    ensures var rest := TrackErrorsStep(q.(errors := q.errors + [reports[0]]), s, development, reports[1..]);
            TrackErrorsStep(q, s, development, reports) ==
              Step(rest.queues, LogIf(s.debug, ErrorTracked(reports[0])) + rest.effects)
    ensures Requests(LogIf(s.debug, ErrorTracked(reports[0]))) == []
  {
    TrackErrorNoFlush(q, s, development, reports[0]);
  }

  /** At the batch size the error queue, with the new report, is flushed. */
  lemma TrackErrorFlushes(q: Queues, s: Settings, development: bool, report: ErrorReport)
    requires |q.errors| + 1 >= BatchSize
    ensures TrackErrorStep(q, s, development, report) ==
              var q1 := q.(errors := q.errors + [report]);
              Step(FlushErrorsStep(q1, s, development).queues,
                   LogIf(s.debug, ErrorTracked(report)) + FlushErrorsStep(q1, s, development).effects)
    ensures TrackErrorStep(q, s, development, report).queues.errors == []
  {
  }

  /** Below the batch size an error is only appended and logged. */
  lemma TrackErrorNoFlush(q: Queues, s: Settings, development: bool, report: ErrorReport)
    requires |q.errors| + 1 < BatchSize
    ensures TrackErrorStep(q, s, development, report) ==
              Step(q.(errors := q.errors + [report]), LogIf(s.debug, ErrorTracked(report)))
    ensures Requests(LogIf(s.debug, ErrorTracked(report))) == []
  {
  }



  /** Twenty errors on an empty error queue in production: exactly one
      request, to `{endpoint}/errors`, carrying the twenty reports in order,
      and the error queue is empty again. */
  lemma TwentyErrorsOneBatch(q: Queues, s: Settings, reports: seq<ErrorReport>)
    requires q.errors == [] && |reports| == BatchSize
    ensures TrackErrorsStep(q, s, false, reports).queues == q
    ensures Requests(TrackErrorsStep(q, s, false, reports).effects) == [Fetch(s.endpoint + "/errors", ErrorBatch(reports))]
  {
    var init := reports[..BatchSize - 1];
    var last := reports[BatchSize - 1];
    TrackErrorsSplit(q, s, false, init, [last]);
    assert init + [last] == reports;
    TrackErrorsAccumulate(q, s, false, init);
    var mid := TrackErrorsStep(q, s, false, init);
    assert mid.queues.errors == init by { assert q.errors + init == init; }
    TrackErrorBelowBatch(mid.queues, s, false, last);
    var fin := TrackErrorStep(mid.queues, s, false, last);
    assert TrackErrorsStep(mid.queues, s, false, [last]) == Step(fin.queues, fin.effects + []);
    assert fin.effects + [] == fin.effects;
    RequestsAppend(mid.effects, fin.effects);
  }

  lemma TrackErrorsSingle(q: Queues, s: Settings, development: bool, report: ErrorReport)
    ensures TrackErrorsStep(q, s, development, [report]) == TrackErrorStep(q, s, development, report)
  {
    var first := TrackErrorStep(q, s, development, report);
    assert [report][1..] == [];
    assert first.effects + [] == first.effects;
  }

  /** Tracking a sequence of errors in two parts is tracking the whole. */
  lemma {:induction false} TrackErrorsSplit(q: Queues, s: Settings, development: bool, xs: seq<ErrorReport>, ys: seq<ErrorReport>)
    decreases |xs|
    ensures TrackErrorsStep(q, s, development, xs + ys) ==
              var a := TrackErrorsStep(q, s, development, xs);
              var b := TrackErrorsStep(a.queues, s, development, ys);
              Step(b.queues, a.effects + b.effects)
  {
    if xs == [] {
      assert xs + ys == ys;
    } else {
      assert (xs + ys)[1..] == xs[1..] + ys;
      assert (xs + ys)[0] == xs[0];
      var first := TrackErrorStep(q, s, development, xs[0]);
      TrackErrorsSplit(first.queues, s, development, xs[1..], ys);
      var a := TrackErrorsStep(first.queues, s, development, xs[1..]);
      var b := TrackErrorsStep(a.queues, s, development, ys);
      assert first.effects + (a.effects + b.effects) == (first.effects + a.effects) + b.effects;
    }
  }

  /** Metrics and interactions never trigger a flush: each append adds one
      record at the end of its own queue and leaves the others unchanged. */
  lemma TrackMetricAppendsOnly(q: Queues, s: Settings, m: PerformanceMetric)
    ensures TrackMetricStep(q, s, m).queues == Queues(q.errors, q.metrics + [m], q.interactions)
    ensures Requests(TrackMetricStep(q, s, m).effects) == []
  {
  }

  lemma TrackInteractionAppendsOnly(q: Queues, s: Settings, i: UserInteraction)
    ensures TrackInteractionStep(q, s, i).queues == Queues(q.errors, q.metrics, q.interactions + [i])
    ensures Requests(TrackInteractionStep(q, s, i).effects) == []
  {
  }

  // ---------------------------------------------------------------------
  // The collector object.
  // ---------------------------------------------------------------------

  class MonitoringSystem {
    var debugMode: bool
    var endpoint: string
    var errorQueue: seq<ErrorReport>
    var metricsQueue: seq<PerformanceMetric>
    var interactionsQueue: seq<UserInteraction>
    var timerId: Option<nat>
    var initialized: bool
    var pendingWebVitalsImport: bool

    /** Everything sent or logged, in order. */
    var outbox: seq<Effect>
    /** `initWhenIdle` callbacks scheduled and not yet run. */
    var pendingIdleInits: nat
    /** Deferred `initialize()` calls scheduled by `initMonitoring`, not yet run. */
    var pendingInitializeCalls: nat
    /** How many times the error, rejection, visibility and pagehide listeners were registered. */
    var listenerSets: nat
    /** How many `load` listeners performance tracking registered. */
    var loadListeners: nat
    /** Interval timers still running, and the next id the runtime hands out. */
    var runningTimers: set<nat>
    var nextTimer: nat

    ghost predicate Valid()
      reads this
    {
      |errorQueue| < BatchSize && TimersOk() && (listenerSets > 0 ==> initialized)
    }

    /** The current timer id is a running timer, and every running timer
        has an id below the next one to be handed out. */
    ghost predicate TimersOk()
      reads this
    {
      (timerId.Some? ==> timerId.value in runningTimers) &&
      (forall t :: t in runningTimers ==> t < nextTimer)
    }

    function QueueState(): Queues
      reads this
    {
      Queues(errorQueue, metricsQueue, interactionsQueue)
    }

    function Config(): Settings
      reads this
    {
      Settings(endpoint, debugMode)
    }

    /** The private constructor: nothing is set up until `initialize`. */
    constructor ()
      ensures Valid() && Pristine()
    {
      debugMode := false;
      endpoint := DefaultEndpoint;
      errorQueue, metricsQueue, interactionsQueue := [], [], [];
      timerId := None;
      initialized := false;
      pendingWebVitalsImport := false;
      outbox := [];
      pendingIdleInits, pendingInitializeCalls := 0, 0;
      listenerSets, loadListeners := 0, 0;
      runningTimers, nextTimer := {}, 0;
    }

    predicate Pristine()
      reads this
    {
      !debugMode && endpoint == DefaultEndpoint && QueueState() == EmptyQueues() &&
      timerId.None? && !initialized && !pendingWebVitalsImport && outbox == [] &&
      pendingIdleInits == 0 && pendingInitializeCalls == 0 && listenerSets == 0 && loadListeners == 0 &&
      runningTimers == {} && nextTimer == 0
    }

    /** `initialize`: unless already initialized (or there is no window),
        schedule `initWhenIdle`. The flag is set only when that callback
        runs, so a second call before then schedules setup again. */
    method Initialize(env: Env)
      modifies this`pendingIdleInits
      ensures pendingIdleInits == old(pendingIdleInits) + (if initialized || !env.hasWindow then 0 else 1)
    {
      if initialized || !env.hasWindow {
        return;
      }
      pendingIdleInits := pendingIdleInits + 1;
    }

    /** `initWhenIdle`, run by the runtime: register the listeners, start
        performance tracking (once), start the flush timer, and only then
        mark the collector initialized. It does not re-check the flag. */
    method RunIdleInit()
      requires Valid() && pendingIdleInits > 0
      modifies this`pendingIdleInits, this`listenerSets, this`pendingWebVitalsImport, this`loadListeners,
               this`timerId, this`runningTimers, this`nextTimer, this`initialized
      ensures Valid() && initialized
      ensures pendingIdleInits == old(pendingIdleInits) - 1
      ensures listenerSets == old(listenerSets) + 1
      ensures pendingWebVitalsImport
      ensures loadListeners == old(loadListeners) + (if old(pendingWebVitalsImport) then 0 else 1)
      ensures timerId == Some(old(nextTimer)) && runningTimers == old(runningTimers) + {old(nextTimer)}
      ensures nextTimer == old(nextTimer) + 1
    {
      pendingIdleInits := pendingIdleInits - 1;
      listenerSets := listenerSets + 1;
      SetupPerformanceTracking();
      StartAutomaticFlush();
      initialized := true;
    }

    /** `setupPerformanceTracking`: registers the `load` listener unless an
        import is already pending. */
    method SetupPerformanceTracking()
      modifies this`pendingWebVitalsImport, this`loadListeners
      ensures pendingWebVitalsImport
      ensures loadListeners == old(loadListeners) + (if old(pendingWebVitalsImport) then 0 else 1)
    {
      if pendingWebVitalsImport {
        return;
      }
      pendingWebVitalsImport := true;
      loadListeners := loadListeners + 1;
    }

    /** `startAutomaticFlush`: a new interval timer; the id of any earlier
        timer is overwritten without clearing that timer. */
    method StartAutomaticFlush()
      requires TimersOk()
      modifies this`timerId, this`runningTimers, this`nextTimer
      ensures timerId == Some(old(nextTimer))
      ensures runningTimers == old(runningTimers) + {old(nextTimer)}
      ensures nextTimer == old(nextTimer) + 1
      ensures TimersOk()
    {
      timerId := Some(nextTimer);
      runningTimers := runningTimers + {nextTimer};
      nextTimer := nextTimer + 1;
    }

    /** `stopAutomaticFlush`: clears the current timer, if any. */
    method StopAutomaticFlush()
      requires Valid()
      modifies this`timerId, this`runningTimers
      ensures Valid() && timerId.None?
      ensures runningTimers == if old(timerId).Some? then old(runningTimers) - {old(timerId).value} else old(runningTimers)
    {
      if timerId.Some? {
        runningTimers := runningTimers - {timerId.value};
        timerId := None;
      }
    }

    method SetDebugMode(enabled: bool)
      modifies this`debugMode
      ensures debugMode == enabled
    {
      debugMode := enabled;
    }

    method SetEndpoint(e: string)
      modifies this`endpoint
      ensures endpoint == e
    {
      endpoint := e;
    }

    /** `sendToServer` */
    method SendToServer(path: string, data: Payload, env: Env)
      modifies this`outbox
      ensures outbox == old(outbox) + SendEffects(Config(), env.development, path, data)
    {
      if env.development {
        Log(WouldSend(endpoint + path, data));
        return;
      }
      if PayloadSize(data) == 0 {
        return;
      }
      outbox := outbox + [Fetch(endpoint + path, data)];
    }

    /** `log` */
    method Log(line: LogLine)
      modifies this`outbox
      ensures outbox == old(outbox) + LogIf(debugMode, line)
    {
      if debugMode {
        outbox := outbox + [Console(line)];
      }
    }

    method FlushErrors(env: Env)
      modifies this`errorQueue, this`outbox
      ensures QueueState() == FlushErrorsStep(old(QueueState()), Config(), env.development).queues
      ensures outbox == old(outbox) + FlushErrorsStep(old(QueueState()), Config(), env.development).effects
    {
      if |errorQueue| == 0 {
        return;
      }
      var errors := errorQueue;
      errorQueue := [];
      SendToServer("/errors", ErrorBatch(errors), env);
    }

    method FlushMetrics(env: Env)
      modifies this`metricsQueue, this`outbox
      ensures QueueState() == FlushMetricsStep(old(QueueState()), Config(), env.development).queues
      ensures outbox == old(outbox) + FlushMetricsStep(old(QueueState()), Config(), env.development).effects
    {
      if |metricsQueue| == 0 {
        return;
      }
      var metrics := metricsQueue;
      metricsQueue := [];
      SendToServer("/metrics", MetricBatch(metrics), env);
    }

    method FlushInteractions(env: Env)
      modifies this`interactionsQueue, this`outbox
      ensures QueueState() == FlushInteractionsStep(old(QueueState()), Config(), env.development).queues
      ensures outbox == old(outbox) + FlushInteractionsStep(old(QueueState()), Config(), env.development).effects
    {
      if |interactionsQueue| == 0 {
        return;
      }
      var interactions := interactionsQueue;
      interactionsQueue := [];
      SendToServer("/interactions", InteractionBatch(interactions), env);
    }

    /** The three flushes in order, as `flushAll` and the fallback run them. */
    method StandardFlush(env: Env)
      modifies this`errorQueue, this`metricsQueue, this`interactionsQueue, this`outbox
      ensures QueueState() == StandardFlushStep(old(QueueState()), Config(), env.development).queues
      ensures outbox == old(outbox) + StandardFlushStep(old(QueueState()), Config(), env.development).effects
    {
      FlushErrors(env);
      FlushMetrics(env);
      FlushInteractions(env);
    }

    /** `flushWithBeacon` */
    method FlushWithBeacon(env: Env)
      modifies this`errorQueue, this`metricsQueue, this`interactionsQueue, this`outbox
      ensures QueueState() == BeaconFlushStep(old(QueueState()), Config(), env).queues
      ensures outbox == old(outbox) + BeaconFlushStep(old(QueueState()), Config(), env).effects
    {
      if !env.beaconAvailable {
        StandardFlush(env);
        return;
      }
      var allData := QueueState();
      if |errorQueue| > 0 || |metricsQueue| > 0 || |interactionsQueue| > 0 {
        outbox := outbox + [Beacon(endpoint + "/all", Combined(allData))];
        errorQueue := [];
        metricsQueue := [];
        interactionsQueue := [];
      }
    }

    /** `flushAll` */
    method FlushAll(env: Env)
      modifies this`errorQueue, this`metricsQueue, this`interactionsQueue, this`outbox
      ensures QueueState() == FlushAllStep(old(QueueState()), Config(), env).queues
      ensures outbox == old(outbox) + FlushAllStep(old(QueueState()), Config(), env).effects
    {
      if !env.visible {
        FlushWithBeacon(env);
      } else {
        StandardFlush(env);
      }
    }

    /** `trackError`: schedules initialization when not initialized, then
        always enqueues the report and flushes the error queue at the
        batch size. */
    method TrackError(message: string, stack: Option<string>, now: string, env: Env)
      requires Valid()
      modifies this`pendingIdleInits, this`errorQueue, this`outbox
      ensures Valid()
      ensures pendingIdleInits == old(pendingIdleInits) + (if initialized || !env.hasWindow then 0 else 1)
      ensures QueueState() == TrackErrorStep(old(QueueState()), Config(), env.development, MakeErrorReport(message, stack, now, env)).queues
      ensures outbox == old(outbox) + TrackErrorStep(old(QueueState()), Config(), env.development, MakeErrorReport(message, stack, now, env)).effects
    {
      if !initialized {
        Initialize(env);
      }
      var report := ErrorReport(message, stack, if env.hasWindow then env.href else "", now,
                                if env.hasWindow then env.userAgent else "");
      EnqueueError(report, env);
    }

    /** The second half of `trackError`: enqueue the report, log it, and
        flush the error queue once it reaches the batch size. */
    method EnqueueError(report: ErrorReport, env: Env)
      requires Valid()
      modifies this`errorQueue, this`outbox
      ensures Valid()
      ensures QueueState() == TrackErrorStep(old(QueueState()), Config(), env.development, report).queues
      ensures outbox == old(outbox) + TrackErrorStep(old(QueueState()), Config(), env.development, report).effects
    {
      ghost var q0, out0 := QueueState(), outbox;
      ghost var logged := LogIf(debugMode, ErrorTracked(report));
      errorQueue := errorQueue + [report];
      Log(ErrorTracked(report));
      ghost var q1 := QueueState();
      assert q1 == q0.(errors := q0.errors + [report]);
      assert outbox == out0 + logged;
      if |errorQueue| >= BatchSize {
        FlushErrors(env);
        TrackErrorFlushes(q0, Config(), env.development, report);
        assert outbox == out0 + (logged + FlushErrorsStep(q1, Config(), env.development).effects);
      } else {
        TrackErrorNoFlush(q0, Config(), env.development, report);
      }
    }

    /** `trackMetric`: dropped until initialized. */
    method TrackMetric(name: string, value: real, now: string, env: Env)
      modifies this`metricsQueue, this`outbox
      ensures !initialized ==> metricsQueue == old(metricsQueue) && outbox == old(outbox)
      ensures initialized ==>
                var step := TrackMetricStep(old(QueueState()), Config(), PerformanceMetric(name, value, if env.hasWindow then env.href else "", now));
                QueueState() == step.queues && outbox == old(outbox) + step.effects
    {
      if !initialized {
        return;
      }
      var metric := PerformanceMetric(name, value, if env.hasWindow then env.href else "", now);
      metricsQueue := metricsQueue + [metric];
      Log(MetricTracked(metric));
    }

    /** `trackInteraction`: dropped until initialized. */
    method TrackInteraction(interactionType: string, element: string, now: string, env: Env)
      modifies this`interactionsQueue, this`outbox
      ensures !initialized ==> interactionsQueue == old(interactionsQueue) && outbox == old(outbox)
      ensures initialized ==>
                var step := TrackInteractionStep(old(QueueState()), Config(),
                                                 UserInteraction(interactionType, element, if env.hasWindow then env.href else "", now));
                QueueState() == step.queues && outbox == old(outbox) + step.effects
    {
      if !initialized {
        return;
      }
      var interaction := UserInteraction(interactionType, element, if env.hasWindow then env.href else "", now);
      interactionsQueue := interactionsQueue + [interaction];
      Log(InteractionTracked(interaction));
    }

    /** The interval callback of a running timer: `flushAll` only while visible. */
    method OnIntervalTick(timer: nat, env: Env)
      requires timer in runningTimers
      modifies this`errorQueue, this`metricsQueue, this`interactionsQueue, this`outbox
      ensures env.visible ==> QueueState() == StandardFlushStep(old(QueueState()), Config(), env.development).queues &&
                              outbox == old(outbox) + StandardFlushStep(old(QueueState()), Config(), env.development).effects
      ensures !env.visible ==> QueueState() == old(QueueState()) && outbox == old(outbox)
    {
      if env.visible {
        FlushAll(env);
      }
    }

    /** The `visibilitychange` (when hidden) and `pagehide` listeners: every
        registered listener set runs `flushWithBeacon`; only the first run
        finds anything to send. */
    method OnPageHidden(env: Env)
      modifies this`errorQueue, this`metricsQueue, this`interactionsQueue, this`outbox
      ensures listenerSets > 0 ==>
                QueueState() == BeaconFlushStep(old(QueueState()), Config(), env).queues &&
                outbox == old(outbox) + BeaconFlushStep(old(QueueState()), Config(), env).effects
      ensures listenerSets == 0 ==> QueueState() == old(QueueState()) && outbox == old(outbox)
    {
      var k := 0;
      while k < listenerSets
        invariant 0 <= k <= listenerSets
        invariant k == 0 ==> QueueState() == old(QueueState()) && outbox == old(outbox)
        invariant k > 0 ==> QueueState() == BeaconFlushStep(old(QueueState()), Config(), env).queues &&
                            outbox == old(outbox) + BeaconFlushStep(old(QueueState()), Config(), env).effects
      {
        if k > 0 {
          BeaconFlushTwice(old(QueueState()), Config(), env);
        }
        FlushWithBeacon(env);
        k := k + 1;
      }
    }

    /** The `error` and `unhandledrejection` listeners: each registered
        listener set tracks the error, so with two sets an uncaught error is
        queued twice. */
    method OnUncaughtError(message: string, stack: Option<string>, now: string, env: Env)
      requires Valid()
      modifies this`pendingIdleInits, this`errorQueue, this`outbox
      ensures Valid() && pendingIdleInits == old(pendingIdleInits)
      ensures QueueState() == TrackErrorsStep(old(QueueState()), Config(), env.development,
                                              Repeat(MakeErrorReport(message, stack, now, env), listenerSets)).queues
      ensures outbox == old(outbox) + TrackErrorsStep(old(QueueState()), Config(), env.development,
                                                      Repeat(MakeErrorReport(message, stack, now, env), listenerSets)).effects
    {
      ghost var report := MakeErrorReport(message, stack, now, env);
      var k := 0;
      while k < listenerSets
        invariant 0 <= k <= listenerSets
        invariant Valid() && pendingIdleInits == old(pendingIdleInits)
        invariant QueueState() == TrackErrorsStep(old(QueueState()), Config(), env.development, Repeat(report, k)).queues
        invariant outbox == old(outbox) + TrackErrorsStep(old(QueueState()), Config(), env.development, Repeat(report, k)).effects
      {
        ghost var before := TrackErrorsStep(old(QueueState()), Config(), env.development, Repeat(report, k));
        ghost var one := TrackErrorStep(before.queues, Config(), env.development, report);
        assert TrackErrorsStep(old(QueueState()), Config(), env.development, Repeat(report, k + 1)) ==
               Step(one.queues, before.effects + one.effects) by {
          TrackErrorsSplit(old(QueueState()), Config(), env.development, Repeat(report, k), [report]);
          assert Repeat(report, k + 1) == Repeat(report, k) + [report];
          TrackErrorsSingle(before.queues, Config(), env.development, report);
        }
        TrackError(message, stack, now, env);
        k := k + 1;
      }
    }
  }

  function Repeat<T>(x: T, n: nat): (r: seq<T>)
    ensures |r| == n && forall i :: 0 <= i < n ==> r[i] == x
  {
    if n == 0 then [] else Repeat(x, n - 1) + [x]
  }

  /** A second beacon flush straight after the first sends and changes
      nothing. */
  lemma BeaconFlushTwice(q: Queues, s: Settings, env: Env)
    ensures BeaconFlushStep(BeaconFlushStep(q, s, env).queues, s, env) == Step(EmptyQueues(), [])
  {
    StandardFlushClears(q, s, env.development);
  }

  // ---------------------------------------------------------------------
  // The singleton and the module-level entry points.
  // ---------------------------------------------------------------------

  /** The module's static state: `MonitoringSystem.instance`. Evaluating the
      module already calls `getInstance()` (the exported `Monitoring`). */
  class Runtime {
    var instance: MonitoringSystem?

    constructor ()
      ensures instance != null && fresh(instance) && instance.Valid() && instance.Pristine()
    {
      instance := new MonitoringSystem();
    }

    /** `getInstance`: creates the object on first use, then always returns it. */
    method GetInstance() returns (m: MonitoringSystem)
      modifies this
      ensures old(instance) != null ==> m == old(instance)
      ensures old(instance) == null ==> fresh(m) && m.Valid() && m.Pristine()
      ensures instance == m
    {
      if instance == null {
        instance := new MonitoringSystem();
      }
      m := instance;
    }
  }

  /** Two `getInstance` calls return the same object. */
  method SameInstance(rt: Runtime) returns (a: MonitoringSystem, b: MonitoringSystem)
    modifies rt
    ensures a == b
  {
    a := rt.GetInstance();
    b := rt.GetInstance();
  }

  datatype InitOptions = InitOptions(debug: Option<bool>, endpoint: Option<string>)

  /** `initMonitoring`: configure the singleton and schedule a deferred
      `initialize()`. The endpoint is set only for a non-empty option, debug
      only when the option is given; development mode forces debug on. */
  method InitMonitoring(rt: Runtime, options: InitOptions, env: Env)
    requires rt.instance != null
    modifies rt.instance`debugMode, rt.instance`endpoint, rt.instance`pendingInitializeCalls
    ensures !env.hasWindow ==> unchanged(rt.instance)
    ensures env.hasWindow ==>
              rt.instance.debugMode == (if env.development then true
                                        else if options.debug.Some? then options.debug.value
                                        else old(rt.instance.debugMode)) &&
              rt.instance.endpoint == (if options.endpoint.Some? && options.endpoint.value != ""
                                       then options.endpoint.value else old(rt.instance.endpoint)) &&
              rt.instance.pendingInitializeCalls == old(rt.instance.pendingInitializeCalls) + 1
  {
    if !env.hasWindow {
      return;
    }
    var monitoring := rt.instance;
    if options.debug.Some? {
      monitoring.SetDebugMode(options.debug.value);
    }
    if options.endpoint.Some? && options.endpoint.value != "" {
      monitoring.SetEndpoint(options.endpoint.value);
    }
    if env.development {
      monitoring.SetDebugMode(true);
    }
    monitoring.pendingInitializeCalls := monitoring.pendingInitializeCalls + 1;
  }

  /** The deferred `monitoring.initialize()` that `initMonitoring` scheduled. */
  method RunDeferredInitialize(m: MonitoringSystem, env: Env)
    requires m.pendingInitializeCalls > 0
    modifies m`pendingInitializeCalls, m`pendingIdleInits
    ensures m.pendingInitializeCalls == old(m.pendingInitializeCalls) - 1
    ensures m.pendingIdleInits == old(m.pendingIdleInits) + (if m.initialized || !env.hasWindow then 0 else 1)
  {
    m.pendingInitializeCalls := m.pendingInitializeCalls - 1;
    m.Initialize(env);
  }

  /** `trackPageView(path)` is `trackInteraction('pageView', path)` on the
      exported instance. */
  method TrackPageView(rt: Runtime, path: string, now: string, env: Env)
    requires rt.instance != null
    modifies rt.instance`interactionsQueue, rt.instance`outbox
    ensures !rt.instance.initialized ==> unchanged(rt.instance)
    ensures rt.instance.initialized ==>
              var step := TrackInteractionStep(old(rt.instance.QueueState()), rt.instance.Config(),
                                               UserInteraction("pageView", path, if env.hasWindow then env.href else "", now));
              rt.instance.QueueState() == step.queues && rt.instance.outbox == old(rt.instance.outbox) + step.effects
  {
    rt.instance.TrackInteraction("pageView", path, now, env);
  }

  /** Once `initialized` is set, `initialize()` schedules nothing. */
  method InitializeWhenInitialized(m: MonitoringSystem, env: Env)
    requires m.initialized
    modifies m`pendingIdleInits
    ensures m.pendingIdleInits == old(m.pendingIdleInits)
  {
    m.Initialize(env);
  }

  /** Stopping twice: the second call changes nothing. */
  method StopTwice(m: MonitoringSystem)
    requires m.Valid()
    modifies m`timerId, m`runningTimers
    ensures m.timerId.None?
    ensures m.runningTimers == if old(m.timerId).Some? then old(m.runningTimers) - {old(m.timerId).value} else old(m.runningTimers)
  {
    m.StopAutomaticFlush();
    m.StopAutomaticFlush();
  }

  /** A fresh collector after `initialize()` and a `trackError` call, with
      the idle callback not yet run: two setups are pending. */
  method TwoPendingSetups(env: Env) returns (m: MonitoringSystem)
    requires env.hasWindow
    ensures fresh(m) && m.Valid()
    ensures m.pendingIdleInits == 2 && !m.initialized
    ensures m.listenerSets == 0 && m.runningTimers == {} && m.timerId.None? && m.nextTimer == 0
  {
    m := new MonitoringSystem();
    m.Initialize(env);
    m.TrackError("x", None, "t", env);
  }

  /** Two `initialize()` calls before the idle callback runs (for instance
      `initMonitoring`'s deferred call and an early `trackError`) set the
      collector up twice: two listener sets and two interval timers, and
      `stopAutomaticFlush` can stop only the second timer. */
  method DoubleSetupScenario(env: Env) returns (listeners: nat, timersLeftAfterStop: nat)
    requires env.hasWindow
    ensures listeners == 2 && timersLeftAfterStop == 1
  {
    var m := TwoPendingSetups(env);
    m.RunIdleInit();
    assert m.runningTimers == {0};
    m.RunIdleInit();
    assert m.runningTimers == {0, 1} && m.timerId == Some(1);
    m.StopAutomaticFlush();
    listeners := m.listenerSets;
    assert m.runningTimers == {0};
    timersLeftAfterStop := |m.runningTimers|;
  }
}
