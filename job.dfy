/** One run of update_status.py: load the configuration, then run one
    monitor pass with the loaded table and keys. */
module Job {
  import opened Common
  import opened UptimeRobot
  import opened CachetHq
  import opened Configuration
  import opened Monitor

  datatype JobOutcome =
    | ConfigFailed(error: ConfigError)               // start-up stopped before any request
    | Ran(fetchUrl: string, pass: PassOutcome)       // the `getMonitors` request and the pass that followed

  function RunJob(sections: seq<Section>, response: Payload, clock: nat -> int): (r: JobOutcome)
    ensures r.ConfigFailed? <==> Load(sections).Err?
    ensures r.Ran? ==> r.fetchUrl == MonitorsUrl(Load(sections).value.sourceKey, PASS_RESPONSE_TIMES, DEFAULT_LOGS, DEFAULT_UPTIME_RATIO)
  {
    match Load(sections)
    case Err(e) => ConfigFailed(e)
    case Ok(cfg) =>
      Ran(MonitorsUrl(cfg.sourceKey, PASS_RESPONSE_TIMES, DEFAULT_LOGS, DEFAULT_UPTIME_RATIO),
          RunPass(response, cfg.monitors, cfg.globals, clock))
  }

  /** The start-up block followed by `MONITOR.update()`. */
  method Run(sections: seq<Section>, response: Payload, clock: nat -> int) returns (r: JobOutcome)
    ensures r == RunJob(sections, response, clock)
  {
    var loaded := LoadConfig(sections);
    if loaded.Err? {
      return ConfigFailed(loaded.error);
    }
    var cfg := loaded.value;
    var fetchUrl, outcome := Update(cfg.sourceKey, cfg.monitors, cfg.globals, response, clock);
    return Ran(fetchUrl, outcome);
  }

  /** The configuration of the worked example: the two reserved sections and one monitored site. */
  function ExampleSections(): seq<Section>
  {
    [(SOURCE_SECTION, map[SOURCE_KEY_OPTION := "u-key"]),
     (CACHET_SECTION, map[API_KEY_OPTION := "c-key", URL_OPTION := "https://status.example"]),
     ("https://example.com", map[API_KEY_OPTION := "c-key", URL_OPTION := "https://status.example",
                                 METRIC_ID_OPTION := "5", COMPONENT_ID_OPTION := "3"])]
  }

  /** Loading the example gives the source key, the globals and one table entry. */
  lemma ExampleLoads()
    ensures Load(ExampleSections()) == Ok(Config("u-key", Globals(Some("c-key"), Some("https://status.example")),
                                                 map["https://example.com" := MonitorEntry("c-key", "https://status.example", "5", Some("3"))]))
  {
    var ss := ExampleSections();
    var a, b := ss[0], ss[1];
    assert ss[..2] == [a, b] && [a, b][..1] == [a] && [a][..0] == [];
    var g := Globals(Some("c-key"), Some("https://status.example"));
    assert Fold([a]) == Ok(LoadState(Some("u-key"), Globals(None, None), map[]));
    assert Fold([a, b]) == Ok(LoadState(Some("u-key"), g, map[]));
  }

  /** The requests sent for the example's monitor. */
  lemma ExampleMonitorCalls(clock: nat -> int)
    ensures MonitorCalls(SourceMonitor("777", "Example", "https://example.com", UPTIME_ROBOT_UP, Some("99.98")),
                         MonitorEntry("c-key", "https://status.example", "5", Some("3")),
                         Globals(Some("c-key"), Some("https://status.example")), clock(0)) == [
              Put("https://status.example/api/v1/components/3/", Some("c-key"), CACHET_OPERATIONAL),
              Post("https://status.example/api/v1/metrics/5/points/", Some("c-key"), Some("99.98"), clock(0))]
  {
    assert ComponentUrl("https://status.example", "3") == "https://status.example/api/v1/components/3/";
    assert MetricPointsUrl("https://status.example", "5") == "https://status.example/api/v1/metrics/5/points/";
  }

  /** One monitor with a component, reported up: one PUT setting the
      component to operational and one POST of the uptime ratio to the metric. */
  lemma ExampleRun(clock: nat -> int)
    ensures var response := Payload(Some("ok"), Some([SourceMonitor("777", "Example", "https://example.com", UPTIME_ROBOT_UP, Some("99.98"))]));
            RunJob(ExampleSections(), response, clock).Ran? &&
            RunJob(ExampleSections(), response, clock).pass == Completed([
              Put("https://status.example/api/v1/components/3/", Some("c-key"), CACHET_OPERATIONAL),
              Post("https://status.example/api/v1/metrics/5/points/", Some("c-key"), Some("99.98"), clock(0))])
  {
    ExampleLoads();
    ExampleMonitorCalls(clock);
    var m := SourceMonitor("777", "Example", "https://example.com", UPTIME_ROBOT_UP, Some("99.98"));
    var entry := MonitorEntry("c-key", "https://status.example", "5", Some("3"));
    var monitors := map["https://example.com" := entry];
    assert [m][..0] == [];
    var g := Globals(Some("c-key"), Some("https://status.example"));
    assert Matched([m][..0], monitors) == [];
    assert Dispatch([m], monitors, g, clock) == Completed(MonitorCalls(m, entry, g, clock(0)));
    var response := Payload(Some("ok"), Some([m]));
    assert RunPass(response, monitors, g, clock) == Dispatch([m], monitors, g, clock);
  }
}
