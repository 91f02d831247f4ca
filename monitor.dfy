/** The class `Monitor` of update_status.py. One pass fetches the monitors
    from Uptime Robot. For each returned monitor whose URL is in the table, it
    sends Cachet at most one component update and exactly one metric point.
    The pass is modelled as the list of Cachet requests it sends. The clock is
    an argument: `clock(k)` is the epoch second read for the k-th metric
    point. */
module Monitor {
  import opened Common
  import opened UptimeRobot
  import opened CachetHq
  import opened Configuration

  /** `update` asks for response times; logs and the ratio window keep their defaults. */
  const PASS_RESPONSE_TIMES := 1

  datatype Fatal =
    | MonitorListMissing  // the accepted answer has no `monitors.monitor` list
    | InvalidMonitor      // the table lookup in `send_data_to_cachet` fails: exit status 1

  /** The requests a pass has sent, and whether it stopped on a fatal error. */
  datatype PassOutcome = Completed(calls: seq<Call>) | Aborted(calls: seq<Call>, error: Fatal)

  /** The requests `send_data_to_cachet` sends for one monitor of the table. */
  function MonitorCalls(m: SourceMonitor, e: MonitorEntry, g: Globals, timestamp: int): (r: seq<Call>)
    ensures |r| == if e.componentId.Some? && MapStatus(m.status).Some? then 2 else 1
    ensures r[|r| - 1] == Post(MetricPointsUrl(Text(g.cachetUrl), e.metricId), g.cachetApiKey, m.customUptimeRatio, timestamp)
    ensures |r| == 2 ==> r[0] == Put(ComponentUrl(Text(g.cachetUrl), e.componentId.value), g.cachetApiKey, MapStatus(m.status).value)
  {
    var cachet := NewClient(g.cachetApiKey, g.cachetUrl, g);
    var put := if e.componentId.Some? then UpdateComponent(cachet, g, e.componentId.value, m.status) else None;
    (if put.Some? then [put.value] else []) + [SetDataMetrics(cachet, g, m.customUptimeRatio, timestamp, e.metricId)]
  }

  /** `send_data_to_cachet`, with the failing table lookup as an error. */
  function SendData(m: SourceMonitor, monitors: map<string, MonitorEntry>, g: Globals, timestamp: int)
    : (r: Result<seq<Call>, Fatal>)
    ensures r.Ok? <==> m.url in monitors
    ensures r.Err? ==> r.error == InvalidMonitor
  {
    if m.url !in monitors then Err(InvalidMonitor)
    else Ok(MonitorCalls(m, monitors[m.url], g, timestamp))
  }

  /** The returned monitors whose URL is in the table, in their order. */
  function Matched(ms: seq<SourceMonitor>, monitors: map<string, MonitorEntry>): (r: seq<SourceMonitor>)
    ensures forall k :: 0 <= k < |r| ==> r[k].url in monitors
    decreases |ms|
  {
    if ms == [] then []
    else
      var init := Matched(ms[..|ms| - 1], monitors);
      if ms[|ms| - 1].url in monitors then init + [ms[|ms| - 1]] else init
  }

  /** The monitors of the table whose entry has a component and whose status maps. */
  function Updated(ms: seq<SourceMonitor>, monitors: map<string, MonitorEntry>): seq<SourceMonitor>
    decreases |ms|
  {
    if ms == [] then []
    else
      var init := Updated(ms[..|ms| - 1], monitors);
      var m := ms[|ms| - 1];
      if m.url in monitors && monitors[m.url].componentId.Some? && MapStatus(m.status).Some? then init + [m] else init
  }

  /** `Matched` keeps exactly the returned monitors whose URL is in the table. */
  lemma {:induction false} MatchedSelects(ms: seq<SourceMonitor>, monitors: map<string, MonitorEntry>)
    ensures forall m <- Matched(ms, monitors) :: m in ms && m.url in monitors
    ensures forall m <- ms :: m.url in monitors ==> m in Matched(ms, monitors)
    decreases |ms|
  {
    if ms != [] {
      var init := ms[..|ms| - 1];
      MatchedSelects(init, monitors);
      assert ms == init + [ms[|ms| - 1]];
    }
  }

  /** `Updated` keeps exactly the returned monitors of the table whose entry
      has a component and whose status maps. */
  lemma {:induction false} UpdatedSelects(ms: seq<SourceMonitor>, monitors: map<string, MonitorEntry>)
    ensures forall m <- Updated(ms, monitors) ::
              m in ms && m.url in monitors && monitors[m.url].componentId.Some? && MapStatus(m.status).Some?
    ensures forall m <- ms ::
              m.url in monitors && monitors[m.url].componentId.Some? && MapStatus(m.status).Some? ==> m in Updated(ms, monitors)
    decreases |ms|
  {
    if ms != [] {
      var init := ms[..|ms| - 1];
      UpdatedSelects(init, monitors);
      assert ms == init + [ms[|ms| - 1]];
    }
  }

  /** The loop of `update` over the returned monitors. */
  function Dispatch(ms: seq<SourceMonitor>, monitors: map<string, MonitorEntry>, g: Globals, clock: nat -> int)
    : (r: PassOutcome)
    ensures r.Completed?
    decreases |ms|
  {
    if ms == [] then Completed([])
    else
      var init := ms[..|ms| - 1];
      var m := ms[|ms| - 1];
      match Dispatch(init, monitors, g, clock)
      case Aborted(calls, e) => Aborted(calls, e)
      case Completed(calls) =>
        if m.url !in monitors then Completed(calls)
        else
          match SendData(m, monitors, g, clock(|Matched(init, monitors)|))
          case Err(e) => Aborted(calls, e)
          case Ok(more) => Completed(calls + more)
  }

  /** A whole pass, given the decoded answer to the `getMonitors` request. */
  function RunPass(response: Payload, monitors: map<string, MonitorEntry>, g: Globals, clock: nat -> int)
    : (r: PassOutcome)
    ensures response.stat != Some("ok") ==> r == Completed([])
    ensures r.Aborted? <==> response.stat == Some("ok") && response.monitorList.None?
    ensures r.Aborted? ==> r == Aborted([], MonitorListMissing)
  {
    var (success, payload) := Accept(response);
    if !success then Completed([])
    else if payload.monitorList.None? then Aborted([], MonitorListMissing)
    else Dispatch(payload.monitorList.value, monitors, g, clock)
  }

  /** `update`: fetch, then one loop over the returned monitors that sends
      the requests of each monitor of the table as it goes. */
  method Update(apiKey: string, monitors: map<string, MonitorEntry>, g: Globals, response: Payload, clock: nat -> int)
    returns (fetchUrl: string, outcome: PassOutcome)
    ensures fetchUrl == MonitorsUrl(apiKey, PASS_RESPONSE_TIMES, DEFAULT_LOGS, DEFAULT_UPTIME_RATIO)
    ensures outcome == RunPass(response, monitors, g, clock)
  {
    var success, payload;
    fetchUrl, success, payload := GetMonitors(apiKey, PASS_RESPONSE_TIMES, DEFAULT_LOGS, DEFAULT_UPTIME_RATIO, response);
    if !success {
      return fetchUrl, Completed([]);
    }
    if payload.monitorList.None? {
      return fetchUrl, Aborted([], MonitorListMissing);
    }
    var ms := payload.monitorList.value;
    var calls: seq<Call> := [];
    var posted := 0;
    var i := 0;
    while i < |ms|
      invariant 0 <= i <= |ms|
      invariant Dispatch(ms[..i], monitors, g, clock) == Completed(calls)
      invariant posted == |Matched(ms[..i], monitors)|
    {
      var m := ms[i];
      assert ms[..i + 1][..i] == ms[..i];
      if m.url in monitors {
        var sent := SendData(m, monitors, g, clock(posted));
        if sent.Err? {
          // `send_data_to_cachet` exits here when its lookup fails, which the
          // membership test just above rules out.
          assert false;
        }
        calls := calls + sent.value;
        posted := posted + 1;
      }
      i := i + 1;
    }
    assert ms[..i] == ms;
    outcome := Completed(calls);
  }

  /** The metric points among the requests, in order. */
  function Posts(calls: seq<Call>): seq<Call>
    decreases |calls|
  {
    if calls == [] then []
    else Posts(calls[..|calls| - 1]) + (if calls[|calls| - 1].Post? then [calls[|calls| - 1]] else [])
  }

  /** The component updates among the requests, in order. */
  function Puts(calls: seq<Call>): seq<Call>
    decreases |calls|
  {
    if calls == [] then []
    else Puts(calls[..|calls| - 1]) + (if calls[|calls| - 1].Put? then [calls[|calls| - 1]] else [])
  }

  lemma {:induction false} PostsAppend(a: seq<Call>, b: seq<Call>)
    ensures Posts(a + b) == Posts(a) + Posts(b)
    decreases |b|
  {
    if b != [] {
      assert (a + b)[..|a + b| - 1] == a + b[..|b| - 1];
      PostsAppend(a, b[..|b| - 1]);
    } else {
      assert a + b == a;
    }
  }

  lemma {:induction false} PutsAppend(a: seq<Call>, b: seq<Call>)
    ensures Puts(a + b) == Puts(a) + Puts(b)
    decreases |b|
  {
    if b != [] {
      assert (a + b)[..|a + b| - 1] == a + b[..|b| - 1];
      PutsAppend(a, b[..|b| - 1]);
    } else {
      assert a + b == a;
    }
  }

  /** Each monitor of the table yields exactly one metric point, in list
      order: the k-th carries that monitor's uptime ratio and its configured
      metric, goes to the global Cachet URL, and is stamped with the k-th clock
      reading. Monitors outside the table yield none. */
  lemma {:induction false} PostsFollowMatchedMonitors(ms: seq<SourceMonitor>, monitors: map<string, MonitorEntry>, g: Globals, clock: nat -> int)
    ensures var posts := Posts(Dispatch(ms, monitors, g, clock).calls);
            var mm := Matched(ms, monitors);
            |posts| == |mm| &&
            forall k :: 0 <= k < |mm| ==>
              posts[k] == Post(MetricPointsUrl(Text(g.cachetUrl), monitors[mm[k].url].metricId),
                               g.cachetApiKey, mm[k].customUptimeRatio, clock(k))
    decreases |ms|
  {
    if ms != [] {
      var init := ms[..|ms| - 1];
      var m := ms[|ms| - 1];
      PostsFollowMatchedMonitors(init, monitors, g, clock);
      if m.url in monitors {
        var before := Dispatch(init, monitors, g, clock).calls;
        var more := MonitorCalls(m, monitors[m.url], g, clock(|Matched(init, monitors)|));
        PostsAppend(before, more);
        if |more| == 2 {
          assert more[..1] == [more[0]];
          assert more[..1][..0] == [];
          assert Posts(more[..1]) == [];
          assert Posts(more) == [more[1]];
        } else {
          assert more[..0] == [];
          assert Posts(more) == [more[0]];
        }
      }
    }
  }

  /** A component update is sent exactly for the monitors of the table whose
      entry has a component and whose status maps, in list order: the k-th
      sets that monitor's component, at the global Cachet URL, to its mapped
      status. */
  lemma {:induction false} PutsFollowComponents(ms: seq<SourceMonitor>, monitors: map<string, MonitorEntry>, g: Globals, clock: nat -> int)
    ensures var puts := Puts(Dispatch(ms, monitors, g, clock).calls);
            var um := Updated(ms, monitors);
            |puts| == |um| &&
            forall k :: 0 <= k < |um| ==>
              um[k].url in monitors && monitors[um[k].url].componentId.Some? && MapStatus(um[k].status).Some? &&
              puts[k] == Put(ComponentUrl(Text(g.cachetUrl), monitors[um[k].url].componentId.value),
                             g.cachetApiKey, MapStatus(um[k].status).value)
    decreases |ms|
  {
    if ms != [] {
      var init := ms[..|ms| - 1];
      var m := ms[|ms| - 1];
      PutsFollowComponents(init, monitors, g, clock);
      if m.url in monitors {
        var before := Dispatch(init, monitors, g, clock).calls;
        var more := MonitorCalls(m, monitors[m.url], g, clock(|Matched(init, monitors)|));
        PutsAppend(before, more);
        if |more| == 2 {
          assert more[..1] == [more[0]];
          assert more[..1][..0] == [];
          assert Puts(more[..1]) == [more[0]];
          assert Puts(more) == [more[0]];
        } else {
          assert more[..0] == [];
          assert Puts(more) == [];
        }
      }
    }
  }

  lemma {:induction false} MatchedIdempotent(ms: seq<SourceMonitor>, monitors: map<string, MonitorEntry>)
    ensures Matched(Matched(ms, monitors), monitors) == Matched(ms, monitors)
    decreases |ms|
  {
    if ms != [] {
      var init := ms[..|ms| - 1];
      var m := ms[|ms| - 1];
      MatchedIdempotent(init, monitors);
      if m.url in monitors {
        var mm := Matched(init, monitors) + [m];
        assert mm[..|mm| - 1] == Matched(init, monitors);
      }
    }
  }

  /** The monitors outside the table play no part: the pass over only the
      matched monitors sends the same requests. */
  lemma {:induction false} UnmatchedMonitorsIgnored(ms: seq<SourceMonitor>, monitors: map<string, MonitorEntry>, g: Globals, clock: nat -> int)
    ensures Dispatch(ms, monitors, g, clock) == Dispatch(Matched(ms, monitors), monitors, g, clock)
    decreases |ms|
  {
    if ms != [] {
      var init := ms[..|ms| - 1];
      var m := ms[|ms| - 1];
      UnmatchedMonitorsIgnored(init, monitors, g, clock);
      if m.url in monitors {
        var mm := Matched(init, monitors) + [m];
        assert mm[..|mm| - 1] == Matched(init, monitors);
        MatchedIdempotent(init, monitors);
      }
    }
  }

  /** Every request of a pass goes to the global Cachet URL with the global key as token. */
  lemma {:induction false} PassUsesGlobalCachet(ms: seq<SourceMonitor>, monitors: map<string, MonitorEntry>, g: Globals, clock: nat -> int)
    ensures forall c <- Dispatch(ms, monitors, g, clock).calls ::
              (c.Put? || c.Post?) && c.Token() == g.cachetApiKey && Text(g.cachetUrl) + "/api/v1/" <= c.url
    decreases |ms|
  {
    if ms != [] {
      var init := ms[..|ms| - 1];
      var m := ms[|ms| - 1];
      PassUsesGlobalCachet(init, monitors, g, clock);
      if m.url in monitors {
        var base := Text(g.cachetUrl);
        var e := monitors[m.url];
        var more := MonitorCalls(m, e, g, clock(|Matched(init, monitors)|));
        assert (base + "/api/v1/metrics/" + e.metricId + "/points/")[..|base + "/api/v1/"|] == base + "/api/v1/";
        if |more| == 2 {
          assert (base + "/api/v1/components/" + e.componentId.value + "/")[..|base + "/api/v1/"|] == base + "/api/v1/";
        }
      }
    }
  }

  /** The per-monitor `cachet_api_key` and `cachet_url` of the table are
      never used: tables that agree on keys, metrics and components give the
      same pass. */
  lemma {:induction false} EntryCredentialsUnused(ms: seq<SourceMonitor>, a: map<string, MonitorEntry>, b: map<string, MonitorEntry>,
                                                  g: Globals, clock: nat -> int)
    requires a.Keys == b.Keys
    requires forall u <- a :: a[u].metricId == b[u].metricId && a[u].componentId == b[u].componentId
    ensures Dispatch(ms, a, g, clock) == Dispatch(ms, b, g, clock)
    decreases |ms|
  {
    if ms != [] {
      var init := ms[..|ms| - 1];
      EntryCredentialsUnused(init, a, b, g, clock);
      MatchedSameKeys(init, a, b);
    }
  }

  lemma {:induction false} MatchedSameKeys(ms: seq<SourceMonitor>, a: map<string, MonitorEntry>, b: map<string, MonitorEntry>)
    requires a.Keys == b.Keys
    ensures Matched(ms, a) == Matched(ms, b)
    decreases |ms|
  {
    if ms != [] {
      MatchedSameKeys(ms[..|ms| - 1], a, b);
    }
  }
}
