/** The start-up block of update_status.py: it sorts the sections of the
    configuration into the Uptime Robot key, the Cachet globals and the table
    of monitors keyed by section name. Reading the file is outside the model.
    The input is the list of sections the parser returns, in file order, each
    holding its options. */
module Configuration {
  import opened Common
  import opened CachetHq

  type Options = map<string, string>
  type Section = (string, Options)

  const SOURCE_SECTION := "uptimeRobot"
  const CACHET_SECTION := "cachet"
  const SOURCE_KEY_OPTION := "UptimeRobotMainApiKey"
  const API_KEY_OPTION := "CachetApiKey"
  const URL_OPTION := "CachetUrl"
  const METRIC_ID_OPTION := "MetricId"
  const COMPONENT_ID_OPTION := "ComponentId"

  /** One entry of `MONITOR_DICT`; `componentId` is `None` when the entry has no `component_id` key. */
  datatype MonitorEntry = MonitorEntry(cachetApiKey: string, cachetUrl: string, metricId: string, componentId: Option<string>)

  /** What the loop has gathered so far. */
  datatype LoadState = LoadState(sourceKey: Option<string>, globals: Globals, monitors: map<string, MonitorEntry>)

  datatype ConfigError =
    | NoSections                                      // no section at all: exit status 1
    | MissingOption(section: string, option: string)  // an option lookup raises `KeyError`
    | SourceKeyUnbound                                // no `uptimeRobot` section: the source key is an unbound name

  /** The loaded configuration handed to the monitor pass. */
  datatype Config = Config(sourceKey: string, globals: Globals, monitors: map<string, MonitorEntry>)

  const INITIAL := LoadState(None, Globals(None, None), map[])

  /** The section names that are not monitors. */
  predicate Reserved(name: string)
  {
    name == SOURCE_SECTION || name == CACHET_SECTION
  }

  /** The options read from a section with this name, in reading order. */
  function RequiredOptions(name: string): seq<string>
  {
    if name == SOURCE_SECTION then [SOURCE_KEY_OPTION]
    else if name == CACHET_SECTION then [API_KEY_OPTION, URL_OPTION]
    else [API_KEY_OPTION, URL_OPTION, METRIC_ID_OPTION]
  }

  predicate HasRequiredOptions(sec: Section)
  {
    forall o <- RequiredOptions(sec.0) :: o in sec.1
  }

  /** A monitor entry records the options of its section, and has a component
      exactly when the section names one. */
  predicate Describes(e: MonitorEntry, opts: Options)
  {
    && API_KEY_OPTION in opts && e.cachetApiKey == opts[API_KEY_OPTION]
    && URL_OPTION in opts && e.cachetUrl == opts[URL_OPTION]
    && METRIC_ID_OPTION in opts && e.metricId == opts[METRIC_ID_OPTION]
    && (e.componentId.Some? <==> COMPONENT_ID_OPTION in opts)
    && (e.componentId.Some? ==> e.componentId.value == opts[COMPONENT_ID_OPTION])
  }

  /** The names of the sections that become monitors. */
  function MonitorNames(ss: seq<Section>): set<string>
  {
    set k | 0 <= k < |ss| && !Reserved(ss[k].0) :: ss[k].0
  }

  /** The index of the last section with the given name, if there is one. */
  function LastNamed(ss: seq<Section>, name: string): (r: Option<nat>)
    ensures r.Some? ==> r.value < |ss| && ss[r.value].0 == name && forall j :: r.value < j < |ss| ==> ss[j].0 != name
    ensures r.None? ==> forall j :: 0 <= j < |ss| ==> ss[j].0 != name
    decreases |ss|
  {
    if ss == [] then None
    else if ss[|ss| - 1].0 == name then Some(|ss| - 1)
    else LastNamed(ss[..|ss| - 1], name)
  }

  function EntryOf(opts: Options): MonitorEntry
    requires API_KEY_OPTION in opts && URL_OPTION in opts && METRIC_ID_OPTION in opts
  {
    MonitorEntry(opts[API_KEY_OPTION], opts[URL_OPTION], opts[METRIC_ID_OPTION],
                 if COMPONENT_ID_OPTION in opts then Some(opts[COMPONENT_ID_OPTION]) else None)
  }

  /** One turn of the loop over the sections. */
  function Step(st: LoadState, sec: Section): (r: Result<LoadState, ConfigError>)
    ensures r.Ok? <==> HasRequiredOptions(sec)
    ensures r.Err? ==> r.error.MissingOption? && r.error.section == sec.0
                       && r.error.option in RequiredOptions(sec.0) && r.error.option !in sec.1
  {
    var (name, opts) := sec;
    if name == SOURCE_SECTION then
      if SOURCE_KEY_OPTION !in opts then Err(MissingOption(name, SOURCE_KEY_OPTION))
      else Ok(st.(sourceKey := Some(opts[SOURCE_KEY_OPTION])))
    else if name == CACHET_SECTION then
      if API_KEY_OPTION !in opts then Err(MissingOption(name, API_KEY_OPTION))
      else if URL_OPTION !in opts then Err(MissingOption(name, URL_OPTION))
      else Ok(st.(globals := Globals(Some(opts[API_KEY_OPTION]), Some(opts[URL_OPTION]))))
    else
      if API_KEY_OPTION !in opts then Err(MissingOption(name, API_KEY_OPTION))
      else if URL_OPTION !in opts then Err(MissingOption(name, URL_OPTION))
      else if METRIC_ID_OPTION !in opts then Err(MissingOption(name, METRIC_ID_OPTION))
      else Ok(st.(monitors := st.monitors[name := EntryOf(opts)]))
  }

  /** The loop over the sections, stopping at the first error. */
  function Fold(ss: seq<Section>): Result<LoadState, ConfigError>
    decreases |ss|
  {
    if ss == [] then Ok(INITIAL)
    else
      match Fold(ss[..|ss| - 1])
      case Err(e) => Err(e)
      case Ok(st) => Step(st, ss[|ss| - 1])
  }

  /** The whole start-up: the empty-list check, the loop, and the use of the source key. */
  function Load(ss: seq<Section>): Result<Config, ConfigError>
  {
    if |ss| == 0 then Err(NoSections)
    else
      match Fold(ss)
      case Err(e) => Err(e)
      case Ok(st) =>
        if st.sourceKey.None? then Err(SourceKeyUnbound)
        else Ok(Config(st.sourceKey.value, st.globals, st.monitors))
  }

  /** The start-up block as the program runs it: one pass over the sections
      that fills the monitor table in place. */
  method LoadConfig(sections: seq<Section>) returns (r: Result<Config, ConfigError>)
    ensures r == Load(sections)
  {
    if |sections| == 0 {
      return Err(NoSections);
    }
    var sourceKey: Option<string> := None;
    var cachetApiKey: Option<string> := None;
    var cachetUrl: Option<string> := None;
    var monitorDict: map<string, MonitorEntry> := map[];
    var i := 0;
    while i < |sections|
      invariant 0 <= i <= |sections|
      invariant Fold(sections[..i]) == Ok(LoadState(sourceKey, Globals(cachetApiKey, cachetUrl), monitorDict))
    {
      var (name, opts) := sections[i];
      assert sections[..i + 1][..i] == sections[..i];
      if name == SOURCE_SECTION {
        if SOURCE_KEY_OPTION !in opts {
          FoldErrorPersists(sections, i + 1);
          return Err(MissingOption(name, SOURCE_KEY_OPTION));
        }
        sourceKey := Some(opts[SOURCE_KEY_OPTION]);
      } else if name == CACHET_SECTION {
        if API_KEY_OPTION !in opts {
          FoldErrorPersists(sections, i + 1);
          return Err(MissingOption(name, API_KEY_OPTION));
        }
        cachetApiKey := Some(opts[API_KEY_OPTION]);
        if URL_OPTION !in opts {
          FoldErrorPersists(sections, i + 1);
          return Err(MissingOption(name, URL_OPTION));
        }
        cachetUrl := Some(opts[URL_OPTION]);
      } else {
        if API_KEY_OPTION !in opts || URL_OPTION !in opts || METRIC_ID_OPTION !in opts {
          FoldErrorPersists(sections, i + 1);
          var missing := if API_KEY_OPTION !in opts then API_KEY_OPTION
                         else if URL_OPTION !in opts then URL_OPTION
                         else METRIC_ID_OPTION;
          return Err(MissingOption(name, missing));
        }
        ghost var before := monitorDict;
        monitorDict := monitorDict[name := MonitorEntry(opts[API_KEY_OPTION], opts[URL_OPTION], opts[METRIC_ID_OPTION], None)];
        if COMPONENT_ID_OPTION in opts {
          monitorDict := monitorDict[name := monitorDict[name].(componentId := Some(opts[COMPONENT_ID_OPTION]))];
        }
        assert monitorDict == before[name := EntryOf(opts)];
      }
      i := i + 1;
    }
    assert sections[..i] == sections;
    if sourceKey.None? {
      return Err(SourceKeyUnbound);
    }
    return Ok(Config(sourceKey.value, Globals(cachetApiKey, cachetUrl), monitorDict));
  }

  /** Once the loop has stopped on an error, the later sections change nothing. */
  lemma {:induction false} FoldErrorPersists(ss: seq<Section>, i: nat)
    requires i <= |ss|
    requires Fold(ss[..i]).Err?
    ensures Fold(ss) == Fold(ss[..i])
    decreases |ss|
  {
    if i < |ss| {
      var init := ss[..|ss| - 1];
      assert init[..i] == ss[..i];
      FoldErrorPersists(init, i);
    } else {
      assert ss[..i] == ss;
    }
  }

  /** The loop gets through every section exactly when each holds the options read from it. */
  lemma {:induction false} FoldSucceeds(ss: seq<Section>)
    ensures Fold(ss).Ok? <==> forall k :: 0 <= k < |ss| ==> HasRequiredOptions(ss[k])
    decreases |ss|
  {
    if ss != [] {
      var init := ss[..|ss| - 1];
      FoldSucceeds(init);
      assert forall k :: 0 <= k < |init| ==> init[k] == ss[k];
    }
  }

  /** On an error, the loop names the first section that lacks an option, and an option it lacks. */
  lemma {:induction false} FoldError(ss: seq<Section>)
    requires Fold(ss).Err?
    ensures Fold(ss).error.MissingOption?
    ensures exists k :: 0 <= k < |ss| && ss[k].0 == Fold(ss).error.section
                     && Fold(ss).error.option in RequiredOptions(ss[k].0) && Fold(ss).error.option !in ss[k].1
                     && forall j :: 0 <= j < k ==> HasRequiredOptions(ss[j])
    decreases |ss|
  {
    var init := ss[..|ss| - 1];
    assert forall k :: 0 <= k < |init| ==> init[k] == ss[k];
    if Fold(init).Err? {
      FoldError(init);
    } else {
      FoldSucceeds(init);
      var k := |ss| - 1;
      assert forall j :: 0 <= j < k ==> HasRequiredOptions(ss[j]);
    }
  }

  /** The source key comes from the last `uptimeRobot` section and is unset without one. */
  lemma {:induction false} FoldSourceKey(ss: seq<Section>)
    requires Fold(ss).Ok?
    ensures match LastNamed(ss, SOURCE_SECTION)
            case None => Fold(ss).value.sourceKey.None?
            case Some(k) => SOURCE_KEY_OPTION in ss[k].1 && Fold(ss).value.sourceKey == Some(ss[k].1[SOURCE_KEY_OPTION])
    decreases |ss|
  {
    if ss != [] {
      var init := ss[..|ss| - 1];
      FoldSourceKey(init);
      if ss[|ss| - 1].0 != SOURCE_SECTION {
        assert LastNamed(ss, SOURCE_SECTION) == LastNamed(init, SOURCE_SECTION);
      }
    }
  }

  /** The Cachet globals come from the last `cachet` section and are unset without one. */
  lemma {:induction false} FoldGlobals(ss: seq<Section>)
    requires Fold(ss).Ok?
    ensures match LastNamed(ss, CACHET_SECTION)
            case None => Fold(ss).value.globals == Globals(None, None)
            case Some(k) => API_KEY_OPTION in ss[k].1 && URL_OPTION in ss[k].1
                            && Fold(ss).value.globals == Globals(Some(ss[k].1[API_KEY_OPTION]), Some(ss[k].1[URL_OPTION]))
    decreases |ss|
  {
    if ss != [] {
      var init := ss[..|ss| - 1];
      FoldGlobals(init);
      if ss[|ss| - 1].0 != CACHET_SECTION {
        assert LastNamed(ss, CACHET_SECTION) == LastNamed(init, CACHET_SECTION);
      }
    }
  }

  /** Every section other than the two reserved ones yields one entry under
      its name, built from the last section of that name. */
  lemma {:induction false} FoldMonitors(ss: seq<Section>)
    requires Fold(ss).Ok?
    ensures Fold(ss).value.monitors.Keys == MonitorNames(ss)
    ensures forall name <- Fold(ss).value.monitors ::
              LastNamed(ss, name).Some? && Describes(Fold(ss).value.monitors[name], ss[LastNamed(ss, name).value].1)
    decreases |ss|
  {
    if ss != [] {
      var init := ss[..|ss| - 1];
      var last := ss[|ss| - 1];
      FoldMonitors(init);
      var before := Fold(init).value.monitors;
      var after := Fold(ss).value.monitors;
      if Reserved(last.0) {
        assert MonitorNames(ss) == MonitorNames(init) by {
          assert forall k :: 0 <= k < |init| ==> init[k] == ss[k];
        }
        forall name <- after
          ensures LastNamed(ss, name) == LastNamed(init, name)
        {
          assert name in MonitorNames(init);
        }
      } else {
        assert MonitorNames(ss) == MonitorNames(init) + {last.0} by {
          assert forall k :: 0 <= k < |init| ==> init[k] == ss[k];
        }
        assert after == before[last.0 := EntryOf(last.1)];
        forall name <- after
          ensures LastNamed(ss, name).Some? && Describes(after[name], ss[LastNamed(ss, name).value].1)
        {
          if name != last.0 {
            assert LastNamed(ss, name) == LastNamed(init, name);
          }
        }
      }
    }
  }

  /** The error cases of start-up: an empty list, a section without an option
      it needs, and a configuration without an `uptimeRobot` section. */
  lemma LoadErrors(ss: seq<Section>)
    ensures Load(ss) == Err(NoSections) <==> ss == []
    ensures (Load(ss).Err? && Load(ss).error.MissingOption?) <==> exists k :: 0 <= k < |ss| && !HasRequiredOptions(ss[k])
    ensures Load(ss) == Err(SourceKeyUnbound) <==>
              ss != [] && (forall k :: 0 <= k < |ss| ==> HasRequiredOptions(ss[k])) && LastNamed(ss, SOURCE_SECTION).None?
  {
    FoldSucceeds(ss);
    if Fold(ss).Err? {
      FoldError(ss);
    }
    if ss != [] && Fold(ss).Ok? {
      FoldSourceKey(ss);
    }
  }

  /** What a successful start-up hands to the monitor pass. */
  lemma LoadSucceeds(ss: seq<Section>)
    requires Load(ss).Ok?
    ensures LastNamed(ss, SOURCE_SECTION).Some?
    ensures var k := LastNamed(ss, SOURCE_SECTION).value;
            SOURCE_KEY_OPTION in ss[k].1 && Load(ss).value.sourceKey == ss[k].1[SOURCE_KEY_OPTION]
    ensures match LastNamed(ss, CACHET_SECTION)
            case None => Load(ss).value.globals == Globals(None, None)
            case Some(k) => API_KEY_OPTION in ss[k].1 && URL_OPTION in ss[k].1
                            && Load(ss).value.globals == Globals(Some(ss[k].1[API_KEY_OPTION]), Some(ss[k].1[URL_OPTION]))
    ensures Load(ss).value.monitors.Keys == MonitorNames(ss)
    ensures SOURCE_SECTION !in Load(ss).value.monitors && CACHET_SECTION !in Load(ss).value.monitors
    ensures forall name <- Load(ss).value.monitors ::
              LastNamed(ss, name).Some? && Describes(Load(ss).value.monitors[name], ss[LastNamed(ss, name).value].1)
  {
    FoldSourceKey(ss);
    FoldGlobals(ss);
    FoldMonitors(ss);
  }
}
