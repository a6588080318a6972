/** One reconcile of a Function, call by call. What git, the func command, the
    operator's ConfigMap and the clock answer is given by a World; the API server
    is shared with others. */
module FunctionReconciler {
  import opened Text
  import opened FunctionStatus
  import opened FunctionHistory
  import opened FunctionResource
  import opened StatusTracker

  datatype Repo = Repo(revision: string, commit: string)

  datatype Metadata = Metadata(name: string, deployer: string, runtime: string)

  datatype Instance = Instance(image: string, revision: string, ready: string, route: string, middleware: string)

  datatype Described = DescribeFailed | NotDeployed | Found(instance: Instance)

  /** The operator's ConfigMap: unreadable, or with an optional setting. */
  datatype OperatorConfig = Unreadable | Readable(autoUpdateMiddleware: Option<string>)

  datatype World = World(
    authSecretFound: bool,            // true as well if none is referenced
    repo: Option<Repo>,
    metadata: Option<Metadata>,
    described: Described,
    lastDeployed: Option<int>,        // the last-deployed annotation, if it parses
    config: OperatorConfig,
    latest: Option<string>,
    deploySucceeds: bool,
    redescribed: Option<Instance>,
    error: string,                    // what the call that failed has to say
    now: int)

  // --- decisions ---

  function ToLower(s: string): (lower: string)
    ensures |lower| == |s|
  {
    if s == "" then ""
    else [if 'A' <= s[0] <= 'Z' then (s[0] as int + 32) as char else s[0]] + ToLower(s[1..])
  }

  predicate SaysReady(ready: string) {
    ToLower(ready) == "true"
  }

  /** `s` is the word in any mixture of lower and upper case. */
  predicate ReadsAs(s: string, lower: string, upper: string) {
    && |s| == |lower| == |upper|
    && forall i :: 0 <= i < |s| ==> s[i] == lower[i] || s[i] == upper[i]
  }

  lemma {:induction false} LowerMeaning(s: string, lower: string, upper: string)
    requires |lower| == |upper|
    requires forall i :: 0 <= i < |lower| ==> 'a' <= lower[i] <= 'z' && upper[i] as int == lower[i] as int - 32
    ensures ToLower(s) == lower <==> ReadsAs(s, lower, upper)
  {
    if |s| == |lower| && s != "" {
      LowerMeaning(s[1..], lower[1..], upper[1..]);
      var rest := ToLower(s[1..]);
      assert ToLower(s)[1..] == rest && lower == [lower[0]] + lower[1..];
      if ReadsAs(s, lower, upper) {
        assert ReadsAs(s[1..], lower[1..], upper[1..]);
      }
    }
  }

  /** What "true" and "false" may look like. */
  lemma ReadinessMeaning(ready: string)
    ensures ToLower(ready) == "true" <==> ReadsAs(ready, "true", "TRUE")
    ensures ToLower(ready) == "false" <==> ReadsAs(ready, "false", "FALSE")
    ensures SaysReady(ready) <==> ReadsAs(ready, "true", "TRUE")
  {
    LowerMeaning(ready, "true", "TRUE");
    LowerMeaning(ready, "false", "FALSE");
  }

  /** The function's own setting wins over the operator's; without either the
      middleware is updated. None is an error. */
  function IsMiddlewareUpdateEnabled(setting: Option<bool>, config: OperatorConfig): Option<AutoUpdate> {
    if setting.Some? then Some(AutoUpdate(setting.value, "function"))
    else if config.Unreadable? then None
    else if config.autoUpdateMiddleware.None? then Some(AutoUpdate(true, "operator"))
    else
      match ParseBool(config.autoUpdateMiddleware.value)
      case Some(enabled) => Some(AutoUpdate(enabled, "operator"))
      case None => None
  }

  datatype MiddlewareCheck = UpToDate(autoUpdate: AutoUpdate) | Outdated(autoUpdate: AutoUpdate, available: string)

  function CheckMiddlewareState(setting: Option<bool>, w: World, instance: Instance): Option<MiddlewareCheck> {
    match IsMiddlewareUpdateEnabled(setting, w.config)
    case None => None
    case Some(autoUpdate) =>
      if w.latest.None? then None
      else if w.latest.value == instance.middleware then Some(UpToDate(autoUpdate))
      else Some(Outdated(autoUpdate, w.latest.value))
  }

  /** What the operator's ConfigMap says, if the function itself says nothing. */
  predicate OperatorSays(config: OperatorConfig, enabled: bool) {
    && config.Readable?
    && if config.autoUpdateMiddleware.None? then enabled
       else ParseBool(config.autoUpdateMiddleware.value) == Some(enabled)
  }

  /** Who decides about updates, and what: the function itself if it says anything;
      else the operator, whose ConfigMap has to be readable and, if it has the setting,
      to have a truth value there. */
  lemma AutoUpdateMeaning(setting: Option<bool>, config: OperatorConfig)
    ensures var decided := IsMiddlewareUpdateEnabled(setting, config);
            && (forall b :: setting == Some(b) ==> decided == Some(AutoUpdate(b, "function")))
            && (setting.None? && config.Unreadable? ==> decided.None?)
            && (setting.None? && config == Readable(None) ==> decided == Some(AutoUpdate(true, "operator")))
            && (forall v :: setting.None? && config == Readable(Some(v)) ==>
                && (decided == Some(AutoUpdate(true, "operator")) <==> v in ["1", "t", "T", "TRUE", "true", "True"])
                && (decided == Some(AutoUpdate(false, "operator")) <==> v in ["0", "f", "F", "FALSE", "false", "False"])
                && (decided.Some? ==> decided.value.source == "operator"))
    ensures forall enabled :: setting.None? ==>
              (OperatorSays(config, enabled) <==>
                 IsMiddlewareUpdateEnabled(setting, config) == Some(AutoUpdate(enabled, "operator")))
  {
  }

  /** Outdated middleware that may be updated. */
  predicate MustRedeploy(setting: Option<bool>, w: World) {
    && w.described.Found?
    && var check := CheckMiddlewareState(setting, w, w.described.instance);
       check.Some? && check.value.Outdated? && check.value.autoUpdate.enabled
  }

  // --- when a Function is ready ---

  /** The source was cloned and read. */
  predicate SourceFound(w: World) {
    w.authSecretFound && w.repo.Some? && w.metadata.Some?
  }

  /** The function runs, its middleware could be compared, and if it had to be
      redeployed then that went well. */
  predicate UpAndCurrent(setting: Option<bool>, w: World) {
    && w.described.Found?
    && CheckMiddlewareState(setting, w, w.described.instance).Some?
    && (MustRedeploy(setting, w) ==> w.deploySucceeds && w.redescribed.Some?)
  }

  /** What was described last. */
  function LastInstance(setting: Option<bool>, w: World): Instance
    requires UpAndCurrent(setting, w)
  {
    if MustRedeploy(setting, w) then w.redescribed.value else w.described.instance
  }

  predicate Serving(setting: Option<bool>, w: World) {
    UpAndCurrent(setting, w) && SaysReady(LastInstance(setting, w).ready)
  }

  /** The status shows the instance. */
  predicate Describes(s: Status, instance: Instance) {
    && s.image == instance.image && s.middleware == instance.middleware
    && s.url == instance.route && s.ready == instance.ready
  }

  /** Of a function that is up, the status shows what was described last, but the
      revision from before any deployment; who decides about updates; and a newer
      middleware only while it has not been deployed. */
  predicate ShowsFunction(s: Status, setting: Option<bool>, w: World)
    requires UpAndCurrent(setting, w)
  {
    && Describes(s, LastInstance(setting, w)) && s.revision == w.described.instance.revision
    && !s.pendingRebuild && IsMiddlewareUpdateEnabled(setting, w.config) == Some(s.autoUpdate)
    && (w.latest.value != w.described.instance.middleware ==>
          s.available == if MustRedeploy(setting, w) then None else w.latest)
  }

  /** What the status says about where the function comes from. */
  function OriginOf(s: Status): (string, string, string, string, string) {
    (s.name, s.resolvedRevision, s.observedCommit, s.deployer, s.runtime)
  }

  /** A deployment is made exactly for outdated middleware whose update the
      function, or without its own setting the operator, has enabled. */
  lemma RedeployMeaning(setting: Option<bool>, w: World)
    ensures MustRedeploy(setting, w) <==>
              && w.described.Found? && w.latest.Some? && w.latest.value != w.described.instance.middleware
              && (setting == Some(true) || (setting.None? && OperatorSays(w.config, true)))
  {
  }

  /** What it takes to be ready: the last described readiness reads "true", and the
      middleware was the latest, or its update was switched off, or the update went
      well. */
  lemma ServingMeaning(setting: Option<bool>, w: World)
    ensures Serving(setting, w) <==>
              && w.described.Found? && w.latest.Some?
              && (setting.Some? || OperatorSays(w.config, true) || OperatorSays(w.config, false))
              && var current := w.latest.value == w.described.instance.middleware;
                 var off := setting == Some(false) || (setting.None? && OperatorSays(w.config, false));
                 if current || off then ReadsAs(w.described.instance.ready, "true", "TRUE")
                 else w.deploySucceeds && w.redescribed.Some? && ReadsAs(w.redescribed.value.ready, "true", "TRUE")
  {
    RedeployMeaning(setting, w);
    if w.described.Found? {
      ReadinessMeaning(w.described.instance.ready);
    }
    if w.redescribed.Some? {
      ReadinessMeaning(w.redescribed.value.ready);
    }
  }

  predicate ReadyIsTrue(s: Status) {
    |s.conditions| == 5 && s.conditions[4].status == True
  }

  /** What holds of every status that is ever stored. */
  predicate Consistent(s: Status) {
    && FiveConditions(s.conditions)
    && Explains(s.conditions[4], s.conditions[..4])
    && (s.pendingRebuild ==> s.conditions[2].status != True && s.conditions[4].status == False)
  }

  lemma ReadyMeansAllTrue(s: Status)
    requires FiveConditions(s.conditions) && Explains(s.conditions[4], s.conditions[..4])
    ensures ReadyIsTrue(s) <==> VerdictsOf(s.conditions) == Verdicts(True, True, True, True)
  {
    var four := s.conditions[..4];
    assert four[0] == s.conditions[0] && four[1] == s.conditions[1];
    assert four[2] == s.conditions[2] && four[3] == s.conditions[3];
  }

  lemma PendingIsConsistent(s: Status)
    requires FiveConditions(s.conditions) && Explains(s.conditions[4], s.conditions[..4])
    requires s.pendingRebuild ==> VerdictsOf(s.conditions).middleware != True
    ensures Consistent(s)
  {
    ReadyMeansAllTrue(s);
  }

  lemma StoredIsConsistent(s: Status)
    requires Consistent(s)
    ensures Consistent(AsStored(s)) && (ReadyIsTrue(AsStored(s)) <==> ReadyIsTrue(s))
  {
    var stored := AsStored(s);
    var four, storedFour := s.conditions[..4], stored.conditions[..4];
    forall i | 0 <= i < 4 && LastFalse(storedFour, i)
      ensures LastFalse(four, i)
    {
      forall j | i < j < 4
        ensures four[j].status != False
      {
        assert storedFour[j].status != False;
      }
    }
    assert forall i :: 0 <= i < 4 ==> storedFour[i].status == four[i].status;
  }

  /** The write changed nothing but the status, and announces a rebuild. */
  predicate AnnouncesRebuild(w: Write) {
    && w.after == w.before.(status := w.after.status, version := w.after.version)
    && w.after.status.pendingRebuild && Consistent(w.after.status)
  }

  /** At most one status is stored halfway. */
  predicate Announced(midway: seq<Write>) {
    midway == [] || (|midway| == 1 && AnnouncesRebuild(midway[0]))
  }

  /** What a step leaves behind that found the Function as `was` and made these
      writes: the tracker still knows what is stored, unless it has written nothing. */
  ghost predicate OnTrack(server: Server, tracker: Tracker, was: Option<Stored>, midway: seq<Write>)
    reads server, tracker
  {
    && server.Valid() && tracker.Remembers(server) && Announced(midway)
    && (server.statusIsOurs && server.resource.Some? ==> was.Some?)
    && (server.calm && was.Some? ==> server.resource.Some?)
  }

  // --- the calls ---

  class FuncCli {
    var deployCalls: nat

    constructor ()
      ensures deployCalls == 0
    {
      deployCalls := 0;
    }

    method Deploy(w: World) returns (ok: bool)
      modifies this
      ensures deployCalls == old(deployCalls) + 1 && ok == w.deploySucceeds
    {
      deployCalls := deployCalls + 1;
      ok := w.deploySucceeds;
    }
  }

  method PrepareSource(f: Function, w: World) returns (ok: bool)
    requires f.Marked()
    modifies f
    ensures f.Marked()
    ensures ok <==> SourceFound(w)
    ensures f.Shown() == old(f.Shown()).With(SourceReady, Verdict(ok))
    ensures f.status.pendingRebuild == old(f.status.pendingRebuild)
    ensures ok ==> f.status.resolvedRevision == w.repo.value.revision && f.status.observedCommit == w.repo.value.commit
    ensures ok ==> f.status.lastChecked == w.now
    ensures f.status.conditions[0].reason ==
            if !w.authSecretFound then "AuthSecretNotFound"
            else if w.repo.None? then "GitCloneFailed"
            else if w.metadata.None? then "MetadataReadFailed"
            else "CloneSucceeded"
  {
    if !w.authSecretFound {
      f.Decide(Mark(SourceReady, false, "AuthSecretNotFound", w.error));
      return false;
    }
    if w.repo.None? {
      f.Decide(Mark(SourceReady, false, "GitCloneFailed", w.error));
      return false;
    }
    if w.metadata.None? {
      f.Decide(Mark(SourceReady, false, "MetadataReadFailed", w.error));
      return false;
    }
    f.Decide(Mark(SourceReady, true, "CloneSucceeded", ""));
    f.status := f.status.(resolvedRevision := w.repo.value.revision, observedCommit := w.repo.value.commit,
                          lastChecked := w.now);
    return true;
  }

  method MarkServiceStatus(ready: string, f: Function)
    requires f.Marked()
    modifies f
    ensures f.Marked()
    ensures f.status == old(f.status).(conditions := f.status.conditions)
    ensures f.Shown() == old(f.Shown()).With(ServiceReady, Verdict(SaysReady(ready)))
    ensures f.Shown().service == if ReadsAs(ready, "true", "TRUE") then True else False
    ensures f.status.conditions[3].reason ==
            if ReadsAs(ready, "true", "TRUE") then "ServiceReady"
            else if ReadsAs(ready, "false", "FALSE") then "ServiceNotReady"
            else "ServiceReadyUnknown"
  {
    ReadinessMeaning(ready);
    var lower := ToLower(ready);
    if lower == "true" {
      f.Decide(Mark(ServiceReady, true, "ServiceReady", ""));
    } else if lower == "false" {
      f.Decide(Mark(ServiceReady, false, "ServiceNotReady", "Underlying service is not ready"));
    } else {
      f.Decide(Mark(ServiceReady, false, "ServiceReadyUnknown", "Underlying service readiness is unknown"));
    }
  }

  /** The status shared by the up-to-date and the outdated branch. Whether newer
      middleware is available is left as it was. */
  method ShowInstance(f: Function, instance: Instance, autoUpdate: AutoUpdate)
    requires f.Marked()
    modifies f
    ensures f.Marked()
    ensures f.Shown() == old(f.Shown()).With(ServiceReady, Verdict(SaysReady(instance.ready)))
    ensures !f.status.pendingRebuild && f.status.revision == instance.revision
    ensures f.status.available == old(f.status.available)
    ensures Describes(f.status, instance) && f.status.autoUpdate == autoUpdate
    ensures OriginOf(f.status) == OriginOf(old(f.status))
  {
    f.status := f.status.(image := instance.image, revision := instance.revision, middleware := instance.middleware,
                          autoUpdate := autoUpdate, pendingRebuild := false,
                          url := instance.route, ready := instance.ready);
    MarkServiceStatus(instance.ready, f);
  }

  /** Shows that a rebuild is about to start. That this cannot be stored does not
      stop the rebuild. */
  method AnnounceRedeploy(server: Server, tracker: Tracker, f: Function, available: string)
    returns (ghost midway: seq<Write>)
    requires server.Valid() && f.Marked() && AsRead(tracker.original)
    modifies server, tracker, f
    ensures OnTrack(server, tracker, old(server.resource), midway) && f.Marked()
    ensures f.Shown() == old(f.Shown()).With(MiddlewareUpToDate, False)
    ensures f.status.pendingRebuild && f.status.revision == old(f.status.revision)
    ensures f.status == old(f.status).(conditions := f.status.conditions, pendingRebuild := true)
    ensures server.log == old(server.log) + midway
  {
    f.Decide(Mark(MiddlewareUpToDate, false, "MiddlewareOutdated", available));
    f.status := f.status.(pendingRebuild := true);
    ghost var outcome;
    var flushed;
    flushed, outcome, midway := tracker.Flush(server, f);
    PendingIsConsistent(f.status);
    StoredIsConsistent(f.status);
  }

  method ShowRedeployed(f: Function, instance: Instance, available: string, now: int)
    requires f.Marked()
    modifies f
    ensures f.Marked()
    ensures f.Shown() ==
            old(f.Shown()).With(ServiceReady, Verdict(SaysReady(instance.ready))).With(MiddlewareUpToDate, True)
    ensures !f.status.pendingRebuild && f.status.revision == old(f.status.revision)
    ensures Describes(f.status, instance)
    ensures OriginOf(f.status) == OriginOf(old(f.status)) && f.status.autoUpdate == old(f.status.autoUpdate)
    ensures f.status.available == None && f.status.imageBuilt == f.status.lastRebuild == now
    ensures Records(old(f.status.history),
                    Entry(now, "Middleware updated from " + old(f.status.middleware) + " to " + available),
                    f.status.history)
  {
    var was := f.status.middleware;
    f.status := f.status.(image := instance.image, middleware := instance.middleware, pendingRebuild := false,
                          lastRebuild := now, imageBuilt := now, available := None, url := instance.route,
                          ready := instance.ready);
    MarkServiceStatus(instance.ready, f);
    f.RecordHistoryEvent("Middleware updated from " + was + " to " + available, now);
    f.Decide(Mark(MiddlewareUpToDate, true, "UpToDate", ""));
  }

  /** Announces the rebuild, deploys once, and describes the result. The revision
      that is shown stays the one from before the deployment. */
  method Redeploy(server: Server, cli: FuncCli, tracker: Tracker, f: Function, w: World, available: string)
    returns (ok: bool, ghost midway: seq<Write>)
    requires server.Valid() && f.Marked() && AsRead(tracker.original)
    modifies server, cli, tracker, f
    ensures OnTrack(server, tracker, old(server.resource), midway) && f.Marked()
    ensures cli.deployCalls == old(cli.deployCalls) + 1
    ensures ok <==> w.deploySucceeds && w.redescribed.Some?
    ensures ok ==>
              && f.Shown().service == Verdict(SaysReady(w.redescribed.value.ready))
              && f.Shown() == old(f.Shown()).With(ServiceReady, f.Shown().service).With(MiddlewareUpToDate, True)
              && !f.status.pendingRebuild && f.status.available == None && Describes(f.status, w.redescribed.value)
    ensures !w.deploySucceeds ==> f.status.conditions[1].reason == "DeployFailed"
    ensures !ok ==>
              f.Shown() == old(f.Shown()).With(MiddlewareUpToDate, False)
                                         .With(Deployed, if w.deploySucceeds then old(f.Shown()).deployed else False)
    ensures f.status.revision == old(f.status.revision) && f.status.autoUpdate == old(f.status.autoUpdate)
    ensures OriginOf(f.status) == OriginOf(old(f.status))
    ensures server.log == old(server.log) + midway
  {
    midway := AnnounceRedeploy(server, tracker, f, available);
    var deployed := cli.Deploy(w);
    if !deployed {
      f.Decide(Mark(Deployed, false, "DeployFailed", w.error));
      return false, midway;
    }
    if w.redescribed.None? {
      return false, midway;
    }
    ShowRedeployed(f, w.redescribed.value, available, w.now);
    return true, midway;
  }

  method HandleOutdated(server: Server, cli: FuncCli, tracker: Tracker, f: Function, w: World,
                        autoUpdate: AutoUpdate, available: string)
    returns (ok: bool, ghost midway: seq<Write>)
    requires server.Valid() && f.Marked() && AsRead(tracker.original)
    requires f.Shown().deployed == Unknown && !f.status.pendingRebuild
    modifies server, cli, tracker, f
    ensures OnTrack(server, tracker, old(server.resource), midway) && f.Marked()
    ensures ok <==> (autoUpdate.enabled ==> w.deploySucceeds && w.redescribed.Some?)
    ensures ok ==>
              && f.Shown() == old(f.Shown()).With(MiddlewareUpToDate, True).With(ServiceReady, f.Shown().service)
              && f.Shown().service == (if autoUpdate.enabled then Verdict(SaysReady(w.redescribed.value.ready))
                                       else old(f.Shown()).service)
              && (if autoUpdate.enabled then f.status.available == None && Describes(f.status, w.redescribed.value)
                  else f.status == old(f.status).(conditions := f.status.conditions))
              && !f.status.pendingRebuild
    ensures !autoUpdate.enabled ==> f.status.conditions[2].reason == "SkipMiddlewareUpdate"
    ensures !ok ==> f.Shown().deployed != True && f.Shown().middleware == False
    ensures f.Shown().source == old(f.Shown()).source && f.status.revision == old(f.status.revision)
    ensures OriginOf(f.status) == OriginOf(old(f.status)) && f.status.autoUpdate == old(f.status.autoUpdate)
    ensures cli.deployCalls == old(cli.deployCalls) + if autoUpdate.enabled then 1 else 0
    ensures server.log == old(server.log) + midway
  {
    if !autoUpdate.enabled {
      f.Decide(Mark(MiddlewareUpToDate, true, "SkipMiddlewareUpdate", autoUpdate.source));
      return true, [];
    }
    ok, midway := Redeploy(server, cli, tracker, f, w, available);
  }

  method HandleMiddlewareUpdate(server: Server, cli: FuncCli, tracker: Tracker, f: Function, w: World,
                                instance: Instance)
    returns (ok: bool, ghost midway: seq<Write>)
    requires server.Valid() && f.Marked() && AsRead(tracker.original)
    requires f.Shown().deployed == Unknown && w.described == Found(instance)
    modifies server, cli, tracker, f
    ensures OnTrack(server, tracker, old(server.resource), midway) && f.Marked()
    ensures ok <==> UpAndCurrent(f.spec.autoUpdateMiddleware, w)
    ensures ok ==>
              && f.Shown().deployed == f.Shown().middleware == True
              && f.Shown().service == Verdict(SaysReady(LastInstance(f.spec.autoUpdateMiddleware, w).ready))
              && ShowsFunction(f.status, f.spec.autoUpdateMiddleware, w)
    ensures OriginOf(f.status) == OriginOf(old(f.status))
    ensures w.latest == Some(instance.middleware) ==> f.status.available == old(f.status.available)
    ensures !ok ==> f.Shown().deployed != True && f.Shown().middleware == False
    ensures f.Shown().source == old(f.Shown()).source
    ensures cli.deployCalls == old(cli.deployCalls) + if MustRedeploy(f.spec.autoUpdateMiddleware, w) then 1 else 0
    ensures server.log == old(server.log) + midway
  {
    hide AnnouncesRebuild, FiveConditions, FalseHasReason, Stamped, SaysReady, ToLower;
    midway := [];
    var check := CheckMiddlewareState(f.spec.autoUpdateMiddleware, w, instance);
    if check.None? {
      f.Decide(Mark(MiddlewareUpToDate, false, "MiddlewareCheckFailed", w.error));
      return false, [];
    }
    ShowInstance(f, instance, check.value.autoUpdate);
    match check.value {
      case UpToDate(_) =>
        f.Decide(Mark(MiddlewareUpToDate, true, "UpToDate", ""));
      case Outdated(autoUpdate, available) =>
        f.status := f.status.(available := Some(available));
        ok, midway := HandleOutdated(server, cli, tracker, f, w, autoUpdate, available);
        if !ok {
          return false, midway;
        }
    }
    f.Decide(Mark(Deployed, true, "DeploySucceeded", ""));
    return true, midway;
  }

  function DeployerOf(metadata: Metadata): string {
    if metadata.deployer == "" then "knative" else metadata.deployer
  }

  method ShowDeployed(f: Function, metadata: Metadata, lastDeployed: Option<int>)
    requires f.Marked()
    modifies f
    ensures f.Marked() && f.Shown() == old(f.Shown()) && f.status.pendingRebuild == old(f.status.pendingRebuild)
    ensures OriginOf(f.status) == OriginOf(old(f.status)).(3 := DeployerOf(metadata), 4 := metadata.runtime)
    ensures DeployerOf(metadata) == if metadata.deployer == "" then "knative" else metadata.deployer
    ensures f.status.imageBuilt == if lastDeployed.Some? then lastDeployed.value else old(f.status.imageBuilt)
    ensures lastDeployed.None? ==> f.status.history == old(f.status.history)
    ensures lastDeployed.Some? ==>
              Records(old(f.status.history), Entry(lastDeployed.value, "Function was deployed/redeployed"),
                      f.status.history)
  {
    f.status := f.status.(deployer := DeployerOf(metadata), runtime := metadata.runtime);
    if lastDeployed.Some? {
      f.status := f.status.(imageBuilt := lastDeployed.value);
      f.RecordHistoryEvent("Function was deployed/redeployed", lastDeployed.value);
    }
  }

  /** A function that is not deployed yet is no error, but is not ready either. */
  method ReconcileDeployment(server: Server, cli: FuncCli, tracker: Tracker, f: Function, w: World, metadata: Metadata)
    returns (ok: bool, ghost midway: seq<Write>)
    requires server.Valid() && f.Marked() && AsRead(tracker.original)
    requires f.Shown().deployed == f.Shown().middleware == Unknown
    modifies server, cli, tracker, f
    ensures OnTrack(server, tracker, old(server.resource), midway) && f.Marked()
    ensures ok <==> w.described.NotDeployed? || UpAndCurrent(f.spec.autoUpdateMiddleware, w)
    ensures w.described.NotDeployed? ==> f.status.conditions[1].reason == "NotDeployed"
    ensures w.described.DescribeFailed? ==> f.status.conditions[1].reason == "DeployFailed"
    ensures f.Shown().source == old(f.Shown()).source
    ensures f.Shown() == Verdicts(f.Shown().source, True, True, True) <==> Serving(f.spec.autoUpdateMiddleware, w)
    ensures UpAndCurrent(f.spec.autoUpdateMiddleware, w) ==> ShowsFunction(f.status, f.spec.autoUpdateMiddleware, w)
    ensures OriginOf(f.status) ==
            if w.described.Found? then OriginOf(old(f.status)).(3 := DeployerOf(metadata), 4 := metadata.runtime)
            else OriginOf(old(f.status))
    ensures f.status.pendingRebuild ==> f.Shown().middleware != True
    ensures cli.deployCalls == old(cli.deployCalls) + if MustRedeploy(f.spec.autoUpdateMiddleware, w) then 1 else 0
    ensures server.log == old(server.log) + midway
  {
    hide AnnouncesRebuild, FiveConditions, FalseHasReason, Stamped, SaysReady, ToLower;
    if w.described.NotDeployed? {
      f.Decide(Mark(Deployed, false, "NotDeployed", "Function not deployed yet"));
      return true, [];
    }
    if w.described.DescribeFailed? {
      f.Decide(Mark(Deployed, false, "DeployFailed", w.error));
      return false, [];
    }
    ShowDeployed(f, metadata, w.lastDeployed);
    ok, midway := HandleMiddlewareUpdate(server, cli, tracker, f, w, w.described.instance);
  }

  /** Everything between reading the Function and the final flush. */
  method ReconcileCopy(server: Server, cli: FuncCli, tracker: Tracker, f: Function, w: World)
    returns (ok: bool, ghost midway: seq<Write>, ghost removal: seq<Write>)
    requires server.Valid() && AsRead(tracker.original)
    modifies server, cli, tracker, f
    ensures OnTrack(server, tracker, old(server.resource), midway) && f.Marked()
    ensures |removal| <= 1 && forall r :: r in removal ==> AnnotationsDropped(r)
    ensures f.Shown() == Verdicts(True, True, True, True) <==> SourceFound(w) && Serving(f.spec.autoUpdateMiddleware, w)
    ensures SourceFound(w) ==> ShowsOrigin(f.status, w)
    ensures SourceFound(w) && UpAndCurrent(f.spec.autoUpdateMiddleware, w) ==>
              ShowsFunction(f.status, f.spec.autoUpdateMiddleware, w)
    ensures f.status.pendingRebuild ==> f.Shown().middleware != True
    ensures cli.deployCalls == old(cli.deployCalls) + if Deploys(f.spec.autoUpdateMiddleware, w) then 1 else 0
    ensures server.log == old(server.log) + midway + removal
    ensures ok ==> GoesWell(f.spec.autoUpdateMiddleware, w)
    ensures server.calm && old(server.resource).Some? && GoesWell(f.spec.autoUpdateMiddleware, w) ==> ok
  {
    hide AnnouncesRebuild, FalseHasReason, Stamped, SaysReady, ToLower, AnnotationsDropped;
    hide ShowsFunction, Describes, UpAndCurrent, MustRedeploy;
    midway, removal := [], [];
    ghost var at := f.InitializeConditions();
    ok := PrepareSource(f, w);
    if !ok {
      return false, [], [];
    }
    f.status := f.status.(name := w.metadata.value.name);
    ok, midway := ReconcileDeployment(server, cli, tracker, f, w, w.metadata.value);
    if !ok {
      return false, midway, [];
    }
    ok, removal := RemoveFuncAnnotations(server);
  }

  /** The status names the function, the revision and the commit that were found, and
      of a deployed function its deployer and runtime. */
  predicate ShowsOrigin(s: Status, w: World)
    requires SourceFound(w)
  {
    && s.name == w.metadata.value.name
    && s.resolvedRevision == w.repo.value.revision && s.observedCommit == w.repo.value.commit
    && (w.described.Found? ==> s.deployer == DeployerOf(w.metadata.value) && s.runtime == w.metadata.value.runtime)
  }

  /** The function is deployed in this world. */
  predicate Deploys(setting: Option<bool>, w: World) {
    SourceFound(w) && MustRedeploy(setting, w)
  }

  /** Nothing in this world makes the reconcile fail. */
  predicate GoesWell(setting: Option<bool>, w: World) {
    SourceFound(w) && (w.described.NotDeployed? || UpAndCurrent(setting, w))
  }

  method FinalFlush(server: Server, tracker: Tracker, f: Function) returns (ok: bool, ghost final: seq<Write>)
    requires server.Valid() && f.Marked() && tracker.Remembers(server)
    requires f.status.pendingRebuild ==> f.Shown().middleware != True
    modifies server, tracker, f
    ensures server.Valid() && server.log == old(server.log) + final
    ensures |final| <= 1 && forall w :: w in final ==> StatusWritten(w, f.status)
    ensures Consistent(f.status) && f.status == old(f.status).(conditions := f.status.conditions)
    ensures ReadyIsTrue(f.status) <==> old(f.Shown()) == Verdicts(True, True, True, True)
    ensures ok && server.statusIsOurs && server.resource.Some? ==>
              old(server.resource).Some? && server.resource.value.status == AsStored(f.status)
    ensures server.calm && old(server.resource).Some? ==> ok && server.resource.Some?
  {
    hide StatusWritten, AsStored, AsRead, Explains, Consistent, ReadyIsTrue, FalseHasReason, Stamped;
    ghost var outcome;
    ok, outcome, final := tracker.Flush(server, f);
    PendingIsConsistent(f.status);
    ReadyMeansAllTrue(f.status);
  }

  // --- one reconcile ---

  /** What one reconcile did: the Function as it was read, the world it found, its
      writes that took effect, and the status in memory at the end. */
  datatype Report = Report(
    got: Stored,
    world: World,
    midway: seq<Write>,
    removal: seq<Write>,
    final: seq<Write>,
    shown: Status)
  {
    function Writes(): seq<Write> {
      midway + removal + final
    }
  }

  /** At most one write announces a rebuild, at most one drops the annotations, and at
      most one stores the final status. That one is consistent, and says Ready exactly
      if this world gave the evidence for this specification. */
  predicate Sound(r: Report) {
    && Announced(r.midway)
    && (|r.removal| <= 1 && forall w :: w in r.removal ==> AnnotationsDropped(w))
    && (|r.final| <= 1 && forall w :: w in r.final ==> StatusWritten(w, r.shown))
    && Consistent(r.shown)
    && (ReadyIsTrue(r.shown) <==> SourceFound(r.world) && Serving(r.got.spec.autoUpdateMiddleware, r.world))
    && (SourceFound(r.world) ==> ShowsOrigin(r.shown, r.world))
    && (SourceFound(r.world) && UpAndCurrent(r.got.spec.autoUpdateMiddleware, r.world) ==>
          ShowsFunction(r.shown, r.got.spec.autoUpdateMiddleware, r.world))
  }

  /** One reconcile, whatever fails and whatever status it started from. Success
      leaves the stored status equal to the final one. If nobody else writes, no call
      fails and the world is in order then it does succeed. */
  method Reconcile(server: Server, cli: FuncCli, w: World) returns (ok: bool, ghost report: Option<Report>)
    requires server.Valid()
    modifies server, cli
    ensures server.Valid()
    ensures SoundIn(report, w) && cli.deployCalls == old(cli.deployCalls) + DeploymentsOf(report)
    ensures server.log == old(server.log) + if report.Some? then report.value.Writes() else []
    ensures report.Some? && ok ==>
              && GoesWell(report.value.got.spec.autoUpdateMiddleware, w)
              && (server.statusIsOurs && server.resource.Some? ==>
                    server.resource.value.status == AsStored(report.value.shown))
    ensures server.calm && old(server.resource).Some? ==>
              && report.Some? && report.value.got == old(server.resource).value && server.resource.Some?
              && (ok <==> GoesWell(report.value.got.spec.autoUpdateMiddleware, w))
  {
    hide Consistent, GoesWell, Serving, Announced, AnnotationsDropped;
    hide StatusWritten, Deploys, FiveConditions, AsRead, AsStored;
    var original := server.Get();
    if original.None? {
      ok := *;   // no error if there is no such Function
      return ok, None;
    }
    var f := new Function(original.value);
    var tracker := new Tracker(f);
    ghost var midway, removal, final;
    ok, midway, removal := ReconcileCopy(server, cli, tracker, f, w);
    var flushed;
    flushed, final := FinalFlush(server, tracker, f);
    ok := ok && flushed;
    report := Some(Report(original.value, w, midway, removal, final, f.status));
  }

  // --- any sequence of reconciles ---

  function Writes(reports: seq<Option<Report>>): seq<Write> {
    if reports == [] then []
    else
      var last := reports[|reports| - 1];
      Writes(reports[..|reports| - 1]) + if last.Some? then last.value.Writes() else []
  }

  function Deployments(reports: seq<Option<Report>>): nat {
    if reports == [] then 0
    else Deployments(reports[..|reports| - 1]) + DeploymentsOf(reports[|reports| - 1])
  }

  ghost predicate AllSound(reports: seq<Option<Report>>, worlds: seq<World>) {
    |reports| == |worlds| && forall i :: 0 <= i < |reports| ==> SoundIn(reports[i], worlds[i])
  }

  predicate SoundIn(report: Option<Report>, w: World) {
    report.Some? ==> Sound(report.value) && report.value.world == w
  }

  lemma OneMore(reports: seq<Option<Report>>, worlds: seq<World>, report: Option<Report>, i: nat)
    requires i < |worlds| && AllSound(reports, worlds[..i]) && SoundIn(report, worlds[i])
    ensures AllSound(reports + [report], worlds[..i + 1])
    ensures Writes(reports + [report]) == Writes(reports) + if report.Some? then report.value.Writes() else []
    ensures Deployments(reports + [report]) == Deployments(reports) + DeploymentsOf(report)
  {
    assert (reports + [report])[..i] == reports;
  }

  function DeploymentsOf(report: Option<Report>): nat {
    if report.Some? && Deploys(report.value.got.spec.autoUpdateMiddleware, report.value.world) then 1 else 0
  }

  /** All that the operator writes and deploys is accounted for by these reconciles,
      one for each world. */
  method ReconcileAll(server: Server, cli: FuncCli, worlds: seq<World>) returns (ghost reports: seq<Option<Report>>)
    requires server.Valid()
    modifies server, cli
    ensures server.Valid() && AllSound(reports, worlds)
    ensures server.log == old(server.log) + Writes(reports)
    ensures cli.deployCalls == old(cli.deployCalls) + Deployments(reports)
  {
    hide Sound;
    reports := [];
    for i := 0 to |worlds|
      invariant server.Valid() && AllSound(reports, worlds[..i])
      invariant server.log == old(server.log) + Writes(reports)
      invariant cli.deployCalls == old(cli.deployCalls) + Deployments(reports)
    {
      ghost var report;
      var ok;
      ok, report := Reconcile(server, cli, worlds[i]);
      OneMore(reports, worlds, report, i);
      reports := reports + [report];
    }
    assert worlds[..|worlds|] == worlds;
  }

  /** The write drops annotations and nothing else, or stores a consistent status and
      nothing else. */
  predicate Harmless(w: Write) {
    || AnnotationsDropped(w)
    || (w.after == w.before.(status := w.after.status, version := w.after.version) && Consistent(w.after.status))
  }

  /** So does every write of any such sequence. */
  lemma {:induction false} AllHarmless(reports: seq<Option<Report>>, worlds: seq<World>)
    requires AllSound(reports, worlds)
    ensures forall w :: w in Writes(reports) ==> Harmless(w)
  {
    if reports != [] {
      var n := |reports| - 1;
      AllHarmless(reports[..n], worlds[..n]);
      if reports[n].Some? {
        SoundIsHarmless(reports[n].value);
      }
    }
  }

  lemma AnnouncedIsHarmless(midway: seq<Write>)
    requires Announced(midway)
    ensures forall w :: w in midway ==> Harmless(w)
  {
    if midway != [] {
      assert midway == [midway[0]];
    }
  }

  lemma FinalIsHarmless(final: seq<Write>, shown: Status)
    requires Consistent(shown) && forall w :: w in final ==> StatusWritten(w, shown)
    ensures forall w :: w in final ==> Harmless(w)
  {
    StoredIsConsistent(shown);
    forall w | w in final
      ensures Harmless(w)
    {
      assert w.after.status == AsStored(shown);
    }
  }

  lemma SoundIsHarmless(r: Report)
    requires Sound(r)
    ensures forall w :: w in r.Writes() ==> Harmless(w)
  {
    AnnouncedIsHarmless(r.midway);
    FinalIsHarmless(r.final, r.shown);
    HarmlessAppend(r.midway, r.removal, r.final);
  }

  lemma HarmlessAppend(a: seq<Write>, b: seq<Write>, c: seq<Write>)
    requires forall w :: w in a ==> Harmless(w)
    requires forall w :: w in b ==> Harmless(w)
    requires forall w :: w in c ==> Harmless(w)
    ensures forall w :: w in a + b + c ==> Harmless(w)
  {
  }

  lemma HarmlessMeaning(w: Write)
    requires Harmless(w)
    ensures w.after.spec == w.before.spec && w.after.generation == w.before.generation
    ensures forall k :: k in w.before.annotations && !(ANNOTATION_PREFIX <= k) ==>
              k in w.after.annotations && w.after.annotations[k] == w.before.annotations[k]
    ensures w.after.annotations.Keys <= w.before.annotations.Keys
    ensures w.after.status == w.before.status
            || (w.after.annotations == w.before.annotations && Consistent(w.after.status))
  {
    WithoutMeaning(w.before.annotations);
  }

  /** No write of any such sequence touches the specification. Every annotation without
      the prefix survives each of them with its value, and none is added. The status is
      left alone or, without a change to the annotations, becomes a consistent one. */
  lemma WritesAreHarmless(reports: seq<Option<Report>>, worlds: seq<World>, w: Write)
    requires AllSound(reports, worlds) && w in Writes(reports)
    ensures w.after.spec == w.before.spec && w.after.generation == w.before.generation
    ensures forall k :: k in w.before.annotations && !(ANNOTATION_PREFIX <= k) ==>
              k in w.after.annotations && w.after.annotations[k] == w.before.annotations[k]
    ensures w.after.annotations.Keys <= w.before.annotations.Keys
    ensures w.after.status == w.before.status
            || (w.after.annotations == w.before.annotations && Consistent(w.after.status))
  {
    AllHarmless(reports, worlds);
    HarmlessMeaning(w);
  }
}
