/**
 * The plugin singleton (WakaTime.java): heartbeat processing with its last-sent state,
 * the READY flag that gates sending, the DEBUG setting, the auto-build watcher that
 * debounces the build job's start and end under one key, and the periodic build
 * watchers that startWatching(Auto)Build replace.
 *
 * A heartbeat is an input here (getHeartbeat's dispatch over editor inputs is not part
 * of this model). Sending a heartbeat is recorded as the command line handed to a new
 * wakatime-cli process; each ScheduledExecutorService a watcher creates is a Watcher
 * whose only state is whether shutdownNow has been called on it.
 */
module WakaTimePlugin {
  import opened Wrappers
  import opened JavaStrings
  import opened CliCommand
  import opened Debouncing
  import opened Heartbeats

  /** The debounce key both auto-build events use. */
  const AutoBuildKey: string := "auto-build"

  /** BUILD_THRESHOLD (3 seconds) in the debouncer's milliseconds: the delay of the start action. */
  const BuildThresholdMillis: nat := 3000

  /** The delay of the auto-build done action, 1 millisecond. */
  const DoneDelayMillis: nat := 1

  /** The two runnables the auto-build watcher debounces, with the heartbeat each captured. */
  datatype BuildAction =
    | AutoBuildStarted(heartbeat: Option<Heartbeat>)
    | AutoBuildDone(heartbeat: Option<Heartbeat>)

  datatype WatcherKind = Build | AutoBuild

  /** A ScheduledExecutorService made by startWatching(Auto)Build. */
  datatype Watcher = Watcher(kind: WatcherKind, shutDown: bool)

  /**
   * The singleton's fields; `watchers` holds every watcher executor ever created and the
   * two scheduler fields are positions in it; `launched` holds the command lines handed
   * to wakatime-cli processes, in order.
   */
  datatype PluginState = PluginState(
    debug: bool,
    ready: bool,
    isBuilding: bool,
    isAutoBuilding: bool,
    lastFile: Option<string>,
    lastTime: int,
    lastProject: Option<Project>,
    lastIsBuilding: bool,
    watchers: seq<Watcher>,
    buildScheduler: Option<nat>,
    autoBuildScheduler: Option<nat>,
    launched: seq<seq<string>>)

  /** Of the two scheduler fields, the one that holds the watcher of a kind. */
  function Holder(build: Option<nat>, autoBuild: Option<nat>, kind: WatcherKind): Option<nat> {
    if kind == Build then build else autoBuild
  }

  function SchedulerOf(st: PluginState, kind: WatcherKind): Option<nat> {
    Holder(st.buildScheduler, st.autoBuildScheduler, kind)
  }

  predicate WatcherLive(st: PluginState, i: nat) {
    i < |st.watchers| && !st.watchers[i].shutDown
  }

  /**
   * The scheduler fields name watchers of their kind, and every watcher not yet shut
   * down is the one its kind's field holds.
   */
  predicate Fits(ws: seq<Watcher>, build: Option<nat>, autoBuild: Option<nat>) {
    && (build.Some? ==> build.value < |ws| && ws[build.value].kind == Build)
    && (autoBuild.Some? ==> autoBuild.value < |ws| && ws[autoBuild.value].kind == AutoBuild)
    && (forall i :: 0 <= i < |ws| && !ws[i].shutDown ==> Holder(build, autoBuild, ws[i].kind) == Some(i))
  }

  predicate WatchersOk(st: PluginState) {
    Fits(st.watchers, st.buildScheduler, st.autoBuildScheduler)
  }

  /** Two states agree on the watcher executors and the fields that hold them. */
  predicate SameWatchers(st: PluginState, st': PluginState) {
    st'.watchers == st.watchers && st'.buildScheduler == st.buildScheduler
    && st'.autoBuildScheduler == st.autoBuildScheduler
  }

  lemma SameWatchersOk(st: PluginState, st': PluginState)
    requires WatchersOk(st) && SameWatchers(st, st')
    ensures WatchersOk(st')
  {
    assert forall k :: SchedulerOf(st', k) == SchedulerOf(st, k);
  }

  /** Hence at most one watcher of each kind is live. */
  lemma OneLiveWatcherPerKind(st: PluginState, i: nat, j: nat)
    requires WatchersOk(st) && WatcherLive(st, i) && WatcherLive(st, j)
    requires st.watchers[i].kind == st.watchers[j].kind
    ensures i == j
  {
  }

  /** The fields as the plugin starts: lastTime is 0, nothing sent, no watcher. */
  function InitialState(): (st: PluginState)
    ensures WatchersOk(st) && !st.ready && !st.debug && st.lastTime == 0 && st.launched == []
    ensures st.watchers == [] && SchedulerOf(st, Build).None? && SchedulerOf(st, AutoBuild).None?
    ensures st.lastFile.None? && st.lastProject.None?
  {
    PluginState(false, false, false, false, None, 0, None, false, [], None, None, [])
  }

  // ------------------------------------------------------------ settings

  /** The DEBUG setting: the configured value exists and trims to "true". */
  function DebugSetting(value: Option<string>): bool {
    value.Some? && Trim(value.value) == "true"
  }

  /** "true" with any padding of characters at most U+0020 turns DEBUG on. */
  lemma DebugOnWhenPadded(pre: string, post: string)
    requires forall i :: 0 <= i < |pre| ==> TrimDrops(pre[i])
    requires forall i :: 0 <= i < |post| ==> TrimDrops(post[i])
    ensures DebugSetting(Some(pre + "true" + post))
  {
    TrimPadded(pre, "true", post);
  }

  /** And only such a value: outside "true" there is nothing but padding. */
  lemma DebugOnOnlyWhenPadded(value: Option<string>)
    requires DebugSetting(value)
    ensures var v := value.value; var k := LeadingBlanks(v);
      && k + 4 <= |v| && v[k..k + 4] == "true"
      && (forall i :: 0 <= i < k ==> TrimDrops(v[i]))
      && (forall i :: k + 4 <= i < |v| ==> TrimDrops(v[i]))
  {
    TrimInfix(value.value);
  }

  /** The environment variable is set and not blank. */
  predicate NonBlank(v: Option<string>) {
    v.Some? && Trim(v.value) != ""
  }

  /**
   * checkCLI's READY decision: READY becomes true once the CLI is installed or upgraded
   * or found up to date; an old CLI pointed to by WAKATIME_CLI_LOCATION is left as it is,
   * and READY keeps its value.
   */
  function ReadyAfterCheck(ready: bool, installed: bool, isOld: bool, envLocation: Option<string>): (r: bool)
    ensures r <==> ready || !installed || !isOld || !NonBlank(envLocation)
    ensures ready ==> r
  {
    if !installed then true
    else if isOld then (if NonBlank(envLocation) then ready else true)
    else true
  }

  // ------------------------------------------------------------ heartbeats

  /**
   * sendHeartbeat: nothing unless READY; otherwise one more process is launched, with a
   * command line that reads back as the heartbeat's fields.
   */
  function AfterSend(st: PluginState, hb: Heartbeat, info: PluginInfo): (st': PluginState)
    ensures !st.ready ==> st' == st
    ensures st.ready ==>
      && |st'.launched| == |st.launched| + 1 && st'.launched[..|st.launched|] == st.launched
      && Decode(st'.launched[|st.launched|]) == Some(ArgsOf(hb, info, st.debug))
      && st' == st.(launched := st'.launched)
  {
    if !st.ready then st
    else
      DecodeEncode(ArgsOf(hb, info, st.debug));
      st.(launched := st.launched + [Encode(ArgsOf(hb, info, st.debug))])
  }

  /**
   * processHeartbeat: a null heartbeat, or one canSend rejects, changes nothing; one it
   * accepts is sent (when READY) and becomes the last-sent state whether or not it was
   * sent.
   */
  function AfterProcess(st: PluginState, hb: Option<Heartbeat>, window: int, info: PluginInfo): (st': PluginState)
    ensures hb.None? || !CanSend(hb.value, st.lastFile, st.lastTime, window) ==> st' == st
    ensures hb.Some? && CanSend(hb.value, st.lastFile, st.lastTime, window) ==>
      && st'.lastFile == Some(hb.value.entity)
      && st'.lastTime == hb.value.timestamp
      && st'.lastIsBuilding == hb.value.isBuilding
      && st'.launched == AfterSend(st, hb.value, info).launched
      && st' == st.(lastFile := st'.lastFile, lastTime := st'.lastTime,
                    lastIsBuilding := st'.lastIsBuilding, launched := st'.launched)
    ensures SameWatchers(st, st') && st'.isBuilding == st.isBuilding && st'.isAutoBuilding == st.isAutoBuilding
  {
    if hb.None? || !CanSend(hb.value, st.lastFile, st.lastTime, window) then st
    else
      AfterSend(st, hb.value, info).(lastFile := Some(hb.value.entity), lastTime := hb.value.timestamp,
                                     lastIsBuilding := hb.value.isBuilding)
  }

  /**
   * The throttle at work: once a heartbeat that is not a write has been processed (with
   * a window that is not negative), processing it again right away sends nothing and
   * changes nothing.
   */
  lemma RepeatIsThrottled(st: PluginState, hb: Heartbeat, window: int, info: PluginInfo)
    requires !hb.isWrite && window >= 0
    ensures var st' := AfterProcess(st, Some(hb), window, info);
      AfterProcess(st', Some(hb), window, info) == st'
  {
    var st' := AfterProcess(st, Some(hb), window, info);
    if CanSend(hb, st.lastFile, st.lastTime, window) {
      assert st'.lastFile == Some(hb.entity) && st'.lastTime == hb.timestamp;
      assert !CanSend(hb, st'.lastFile, st'.lastTime, window);
    }
  }

  // ------------------------------------------------------------ watchers

  /** shutdownNow on the executor a scheduler field holds, when it holds one. */
  function ShutDown(ws: seq<Watcher>, sched: Option<nat>): (r: seq<Watcher>)
    requires sched.Some? ==> sched.value < |ws|
    ensures |r| == |ws|
    ensures forall i :: 0 <= i < |ws| ==>
      r[i] == if sched == Some(i) then ws[i].(shutDown := true) else ws[i]
  {
    if sched.Some? then ws[sched.value := ws[sched.value].(shutDown := true)] else ws
  }

  /**
   * startWatchingBuild / startWatchingAutoBuild: the executor the field holds is shut
   * down, and a new one takes its place; nothing else changes.
   */
  function AfterStartWatching(st: PluginState, kind: WatcherKind): (st': PluginState)
    requires WatchersOk(st)
    ensures WatchersOk(st')
    ensures |st'.watchers| == |st.watchers| + 1 && st'.watchers[|st.watchers|] == Watcher(kind, false)
    ensures SchedulerOf(st', kind) == Some(|st.watchers|)
    ensures forall i :: 0 <= i < |st'.watchers| && WatcherLive(st', i) && st'.watchers[i].kind == kind ==>
      i == |st.watchers|
  {
    var n := |st.watchers|;
    var ws := ShutDown(st.watchers, SchedulerOf(st, kind)) + [Watcher(kind, false)];
    ReplacedWatcherOk(st.watchers, st.buildScheduler, st.autoBuildScheduler, kind);
    if kind == Build then st.(watchers := ws, buildScheduler := Some(n))
    else st.(watchers := ws, autoBuildScheduler := Some(n))
  }

  /**
   * Starting a watcher touches nothing but the executor the field held, the new one and
   * the field itself: the other kind's field and every other field keep their values.
   */
  lemma StartWatchingChangesOnlyKind(st: PluginState, kind: WatcherKind)
    requires WatchersOk(st)
    ensures var st' := AfterStartWatching(st, kind);
      && (forall i :: 0 <= i < |st.watchers| ==>
            st'.watchers[i] == if SchedulerOf(st, kind) == Some(i) then st.watchers[i].(shutDown := true)
                               else st.watchers[i])
      && st' == st.(watchers := st'.watchers, buildScheduler := st'.buildScheduler,
                    autoBuildScheduler := st'.autoBuildScheduler)
      && (forall k :: k != kind ==> SchedulerOf(st', k) == SchedulerOf(st, k))
  {
  }

  /** Replacing the watcher of a kind by a new one keeps every live watcher held by its field. */
  lemma ReplacedWatcherOk(ws: seq<Watcher>, build: Option<nat>, autoBuild: Option<nat>, kind: WatcherKind)
    requires Fits(ws, build, autoBuild)
    ensures var n := |ws|;
      Fits(ShutDown(ws, Holder(build, autoBuild, kind)) + [Watcher(kind, false)],
           if kind == Build then Some(n) else build, if kind == AutoBuild then Some(n) else autoBuild)
  {
    var n := |ws|;
    var ws' := ShutDown(ws, Holder(build, autoBuild, kind)) + [Watcher(kind, false)];
    var build' := if kind == Build then Some(n) else build;
    var autoBuild' := if kind == AutoBuild then Some(n) else autoBuild;
    forall i | 0 <= i < |ws'| && !ws'[i].shutDown
      ensures Holder(build', autoBuild', ws'[i].kind) == Some(i)
    {
      if i < n {
        assert ws'[i] == ws[i];
      }
    }
  }

  /** stopWatchingBuild / stopWatchingAutoBuild: afterwards no watcher of the kind is live. */
  function AfterStopWatching(st: PluginState, kind: WatcherKind): (st': PluginState)
    requires WatchersOk(st)
    ensures WatchersOk(st')
    ensures forall i :: 0 <= i < |st'.watchers| && WatcherLive(st', i) ==> st'.watchers[i].kind != kind
    ensures forall i :: 0 <= i < |st.watchers| && WatcherLive(st, i) && st.watchers[i].kind != kind ==> WatcherLive(st', i)
    ensures |st'.watchers| == |st.watchers|
    ensures forall i :: 0 <= i < |st.watchers| ==>
      st'.watchers[i] == if SchedulerOf(st, kind) == Some(i) then st.watchers[i].(shutDown := true) else st.watchers[i]
    ensures st' == st.(watchers := st'.watchers)
  {
    st.(watchers := ShutDown(st.watchers, SchedulerOf(st, kind)))
  }

  /**
   * One firing of a watcher's periodic task: the current heartbeat is processed, and
   * when the build it watches is over the executor in its field is shut down.
   */
  function AfterWatcherFires(st: PluginState, id: nat, hb: Option<Heartbeat>, window: int, info: PluginInfo)
    : (st': PluginState)
    requires WatchersOk(st) && WatcherLive(st, id)
    ensures WatchersOk(st')
    ensures var kind := st.watchers[id].kind;
      var building := if kind == Build then st.isBuilding else st.isAutoBuilding;
      && (!building ==> !WatcherLive(st', id) && forall i :: 0 <= i < |st'.watchers| && WatcherLive(st', i) ==>
            st'.watchers[i].kind != kind)
      && (building ==> st'.watchers == st.watchers)
    ensures st'.lastFile == AfterProcess(st, hb, window, info).lastFile
    ensures st'.launched == AfterProcess(st, hb, window, info).launched
    ensures st' == AfterProcess(st, hb, window, info).(watchers := st'.watchers)
    ensures |st'.watchers| == |st.watchers|
    ensures var kind := st.watchers[id].kind;
      var building := if kind == Build then st.isBuilding else st.isAutoBuilding;
      forall i :: 0 <= i < |st.watchers| ==>
        st'.watchers[i] == if i == id && !building then st.watchers[i].(shutDown := true) else st.watchers[i]
  {
    var st1 := AfterProcess(st, hb, window, info);
    SameWatchersOk(st, st1);
    var kind := st.watchers[id].kind;
    if kind == Build && !st1.isBuilding then AfterStopWatching(st1, Build)
    else if kind == AutoBuild && !st1.isAutoBuilding then AfterStopWatching(st1, AutoBuild)
    else st1
  }

  /**
   * What the debounced auto-build runnables do: the start action sets isAutoBuilding,
   * processes its heartbeat and starts the auto-build watcher; the done action clears
   * isAutoBuilding, processes its heartbeat and stops the watcher.
   */
  function AfterAction(st: PluginState, action: BuildAction, window: int, info: PluginInfo): (st': PluginState)
    requires WatchersOk(st)
    ensures WatchersOk(st')
    ensures action.AutoBuildStarted? ==>
      && st'.isAutoBuilding
      && SchedulerOf(st', AutoBuild) == Some(|st.watchers|) && WatcherLive(st', |st.watchers|)
      && forall i :: 0 <= i < |st'.watchers| && WatcherLive(st', i) && st'.watchers[i].kind == AutoBuild ==>
           i == |st.watchers|
    ensures action.AutoBuildDone? ==>
      && !st'.isAutoBuilding
      && forall i :: 0 <= i < |st'.watchers| && WatcherLive(st', i) ==> st'.watchers[i].kind != AutoBuild
    ensures st'.launched == AfterProcess(st, action.heartbeat, window, info).launched
    ensures st'.lastFile == AfterProcess(st, action.heartbeat, window, info).lastFile
    ensures var st1 := AfterProcess(st.(isAutoBuilding := action.AutoBuildStarted?), action.heartbeat, window, info);
      st' == st1.(watchers := st'.watchers, autoBuildScheduler := st'.autoBuildScheduler)
    ensures |st'.watchers| == |st.watchers| + (if action.AutoBuildStarted? then 1 else 0)
    ensures forall i :: 0 <= i < |st.watchers| ==>
      st'.watchers[i] == if SchedulerOf(st, AutoBuild) == Some(i) then st.watchers[i].(shutDown := true)
                         else st.watchers[i]
    ensures action.AutoBuildStarted? ==> st'.watchers[|st.watchers|] == Watcher(AutoBuild, false)
    ensures action.AutoBuildDone? ==> st'.autoBuildScheduler == st.autoBuildScheduler
  {
    var st0 := st.(isAutoBuilding := action.AutoBuildStarted?);
    SameWatchersOk(st, st0);
    var st1 := AfterProcess(st0, action.heartbeat, window, info);
    SameWatchersOk(st0, st1);
    if action.AutoBuildStarted? then
      StartWatchingChangesOnlyKind(st1, AutoBuild);
      AfterStartWatching(st1, AutoBuild)
    else AfterStopWatching(st1, AutoBuild)
  }

  // ------------------------------------------------------------ auto-build timing

  /**
   * An auto-build that ends less than BUILD_THRESHOLD after it began: the start action
   * was not yet due when the done event came, the done event's debounce cancels it so
   * that it never runs whatever happens next, and the done action is the live task
   * mapped under "auto-build".
   */
  lemma QuickBuildRunsOnlyDone(s: Sched<BuildAction>, started: Option<Heartbeat>, done: Option<Heartbeat>,
                               elapsed: nat, steps: seq<Step<BuildAction>>)
    requires Wf(s) && !s.terminated && elapsed < BuildThresholdMillis
    requires Execute(AfterDebounce(AfterTick(AfterDebounce(s, AutoBuildKey, AutoBuildStarted(started),
                                                           BuildThresholdMillis), elapsed),
                                   AutoBuildKey, AutoBuildDone(done), DoneDelayMillis), steps).Some?
    ensures var s1 := AfterDebounce(s, AutoBuildKey, AutoBuildStarted(started), BuildThresholdMillis);
      var s2 := AfterTick(s1, elapsed);
      var s3 := AfterDebounce(s2, AutoBuildKey, AutoBuildDone(done), DoneDelayMillis);
      var startId := |s.tasks|;
      && s1.tasks[startId].runnable == AutoBuildStarted(started)
      && !CanStart(s2, startId)
      && s3.tasks[startId].cancelled
      && Execute(s3, steps).value.tasks[startId].phase == Waiting
      && s3.delayedMap[AutoBuildKey] == startId + 1
      && s3.tasks[startId + 1].runnable == AutoBuildDone(done)
      && Debouncing.Live(s3.tasks[startId + 1])
  {
    var s1 := AfterDebounce(s, AutoBuildKey, AutoBuildStarted(started), BuildThresholdMillis);
    var s2 := AfterTick(s1, elapsed);
    var s3 := AfterDebounce(s2, AutoBuildKey, AutoBuildDone(done), DoneDelayMillis);
    var startId := |s.tasks|;
    assert s2.tasks == s1.tasks && s2.delayedMap == s1.delayedMap && !s2.terminated;
    assert s3.tasks[startId] == s2.tasks[startId].(cancelled := true);
    CancelledNeverRuns(s3, steps, startId);
  }

  // ------------------------------------------------------------ the singleton

  /** WakaTime.java's singleton; the CLI and version strings are fixed at creation. */
  class WakaTime {
    const window: int := ThrottleWindow
    const info: PluginInfo
    const debouncer: Debouncer<BuildAction>
    var debug: bool
    var ready: bool
    var isBuilding: bool
    var isAutoBuilding: bool
    var lastFile: Option<string>
    var lastTime: int
    var lastProject: Option<Project>
    var lastIsBuilding: bool
    var watchers: seq<Watcher>
    var buildScheduler: Option<nat>
    var autoBuildScheduler: Option<nat>
    var launched: seq<seq<string>>

    function Snapshot(): PluginState
      reads this
    {
      PluginState(debug, ready, isBuilding, isAutoBuilding, lastFile, lastTime, lastProject, lastIsBuilding,
                  watchers, buildScheduler, autoBuildScheduler, launched)
    }

    ghost predicate Valid()
      reads this, debouncer
    {
      debouncer.Valid() && WatchersOk(Snapshot())
    }

    /** The fields' initial values, and start()'s new Debouncer. */
    constructor (info: PluginInfo)
      ensures Valid() && fresh(debouncer)
      ensures Snapshot() == InitialState() && debouncer.State() == Init()
      ensures this.info == info
    {
      this.info := info;
      debouncer := new Debouncer<BuildAction>();
      debug, ready, isBuilding, isAutoBuilding := false, false, false, false;
      lastFile, lastTime, lastProject, lastIsBuilding := None, 0, None, false;
      watchers, buildScheduler, autoBuildScheduler, launched := [], None, None, [];
    }

    /** earlyStartup's reading of the "debug" setting. */
    method LoadDebugSetting(value: Option<string>)
      requires Valid()
      modifies this
      ensures Valid()
      ensures Snapshot() == old(Snapshot()).(debug := DebugSetting(value))
    {
      debug := value.Some? && Trim(value.value) == "true";
      SameWatchersOk(old(Snapshot()), Snapshot());
    }

    /** checkCLI, over whether the CLI is installed, whether it is old, and $WAKATIME_CLI_LOCATION. */
    method CheckCli(installed: bool, isOld: bool, envLocation: Option<string>)
      requires Valid()
      modifies this
      ensures Valid()
      ensures Snapshot() == old(Snapshot()).(ready := ReadyAfterCheck(old(ready), installed, isOld, envLocation))
    {
      if !installed {
        ready := true;
      } else if isOld {
        if NonBlank(envLocation) {
          // the out-of-date CLI at $WAKATIME_CLI_LOCATION is only reported
        } else {
          ready := true;
        }
      } else {
        ready := true;
      }
      SameWatchersOk(old(Snapshot()), Snapshot());
    }

    /**
     * The constructor call getHeartbeat makes, with the clock and the workspace as
     * parameters; setProject's update of lastProject lands here.
     */
    method NewHeartbeatFor(entity: string, isWrite: bool, e: Option<Editor>, isDatabase: bool,
                           nowMillis: nat, workspace: seq<Project>) returns (hb: Heartbeat)
      requires Valid() && (e.Some? || isDatabase)
      modifies this
      ensures Valid()
      ensures Snapshot() == old(Snapshot()).(lastProject := lastProject)
      ensures ProjectChoice(e, old(lastProject), workspace, hb.project, lastProject)
      ensures hb.entityType == "file" && hb.timestamp == nowMillis / 1000 && hb.isWrite == isWrite
      ensures !hb.isBuilding && hb.isUnsavedFile == isDatabase && hb.alternateLanguage.None?
      ensures isDatabase ==> hb.entity == entity && hb.lineCount.None? && hb.lineNumber.None? && hb.cursorPosition.None?
      ensures !isDatabase ==>
        && hb.entity == FixFilePath(entity)
        && MetadataFrom(hb.(lineCount := None, lineNumber := None, cursorPosition := None), e.value, hb)
    {
      hb, lastProject := NewHeartbeat(entity, isWrite, e, isDatabase, nowMillis, lastProject, workspace);
    }

    /** sendHeartbeat's READY gate and the command line it launches. */
    method SendHeartbeat(hb: Heartbeat)
      requires Valid()
      modifies this
      ensures Valid()
      ensures Snapshot() == AfterSend(old(Snapshot()), hb, info)
    {
      if !ready {
        return;
      }
      var cmds := ToCliCommands(hb, info, debug);
      launched := launched + [cmds];
      assert Snapshot() == old(Snapshot()).(launched := old(launched) + [cmds]);
      SameWatchersOk(old(Snapshot()), Snapshot());
    }

    method ProcessHeartbeat(hb: Option<Heartbeat>)
      requires Valid()
      modifies this
      ensures Valid()
      ensures Snapshot() == AfterProcess(old(Snapshot()), hb, window, info)
    {
      if hb.None? {
        return;
      }
      if !CanSend(hb.value, lastFile, lastTime, window) {
        return;
      }
      ghost var sent := AfterSend(Snapshot(), hb.value, info);
      SendHeartbeat(hb.value);
      lastFile := Some(hb.value.entity);
      lastTime := hb.value.timestamp;
      lastIsBuilding := hb.value.isBuilding;
      assert Snapshot() == sent.(lastFile := lastFile, lastTime := lastTime, lastIsBuilding := lastIsBuilding);
      SameWatchersOk(old(Snapshot()), Snapshot());
    }

    method StartWatching(kind: WatcherKind)
      requires Valid()
      modifies this
      ensures Valid()
      ensures Snapshot() == AfterStartWatching(old(Snapshot()), kind)
    {
      ghost var after := AfterStartWatching(Snapshot(), kind);
      var n := |watchers|;
      var current := if kind == Build then buildScheduler else autoBuildScheduler;
      watchers := ShutDown(watchers, current);
      watchers := watchers + [Watcher(kind, false)];
      if kind == Build {
        buildScheduler := Some(n);
      } else {
        autoBuildScheduler := Some(n);
      }
      assert watchers == after.watchers;
    }

    method StopWatching(kind: WatcherKind)
      requires Valid()
      modifies this
      ensures Valid()
      ensures Snapshot() == AfterStopWatching(old(Snapshot()), kind)
    {
      var current := if kind == Build then buildScheduler else autoBuildScheduler;
      watchers := ShutDown(watchers, current);
    }

    /** The periodic task of live watcher `id` runs once, with the heartbeat of the moment. */
    method WatcherFires(id: nat, hb: Option<Heartbeat>)
      requires Valid() && WatcherLive(Snapshot(), id)
      modifies this
      ensures Valid()
      ensures Snapshot() == AfterWatcherFires(old(Snapshot()), id, hb, window, info)
    {
      var kind := watchers[id].kind;
      ProcessHeartbeat(hb);
      if kind == Build && !isBuilding {
        watchers := ShutDown(watchers, buildScheduler);
      } else if kind == AutoBuild && !isAutoBuilding {
        watchers := ShutDown(watchers, autoBuildScheduler);
      }
    }

    /** The auto-build job is about to run: the start action is debounced for BUILD_THRESHOLD. */
    method OnAutoBuildAboutToRun(hb: Option<Heartbeat>)
      requires Valid()
      modifies debouncer
      ensures Valid()
      ensures debouncer.State() == AfterDebounce(old(debouncer.State()), AutoBuildKey,
                                                 AutoBuildStarted(hb), BuildThresholdMillis)
    {
      var _ := debouncer.Debounce(AutoBuildKey, AutoBuildStarted(hb), BuildThresholdMillis);
    }

    /** The auto-build job is done: the done action is debounced for 1 ms under the same key. */
    method OnAutoBuildDone(hb: Option<Heartbeat>)
      requires Valid()
      modifies debouncer
      ensures Valid()
      ensures debouncer.State() == AfterDebounce(old(debouncer.State()), AutoBuildKey,
                                                 AutoBuildDone(hb), DoneDelayMillis)
    {
      var _ := debouncer.Debounce(AutoBuildKey, AutoBuildDone(hb), DoneDelayMillis);
    }

    /** The debouncer's worker picks task `id` up and its runnable takes effect. */
    method RunDebouncedTask(id: nat)
      requires Valid() && CanStart(debouncer.State(), id)
      modifies this, debouncer
      ensures Valid()
      ensures debouncer.State() == AfterStart(old(debouncer.State()), id)
      ensures Snapshot() == AfterAction(old(Snapshot()), old(debouncer.tasks[id].runnable), window, info)
    {
      debouncer.StartTask(id);
      var action := debouncer.tasks[id].runnable;
      match action
      case AutoBuildStarted(hb) =>
        isAutoBuilding := true;
        ProcessHeartbeat(hb);
        StartWatching(AutoBuild);
      case AutoBuildDone(hb) =>
        isAutoBuilding := false;
        ProcessHeartbeat(hb);
        StopWatching(AutoBuild);
    }

    /** The runnable of task `id` has returned; the wrapper's finally removes its key. */
    method FinishDebouncedTask(id: nat)
      requires Valid() && CanFinish(debouncer.State(), id)
      modifies debouncer
      ensures Valid()
      ensures debouncer.State() == AfterFinish(old(debouncer.State()), id)
    {
      debouncer.FinishTask(id);
    }

    /** Time passes for the debouncer's executor. */
    method Tick(dt: nat)
      requires Valid()
      modifies debouncer
      ensures Valid()
      ensures debouncer.State() == AfterTick(old(debouncer.State()), dt)
    {
      debouncer.Tick(dt);
    }

    /** stop(): the debouncer is shut down. */
    method Stop()
      requires Valid()
      modifies debouncer
      ensures Valid()
      ensures debouncer.State() == AfterShutdown(old(debouncer.State()))
    {
      debouncer.Shutdown();
    }
  }
}
