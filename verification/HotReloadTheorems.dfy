/** What the hot-reload protocol guarantees: in every reachable state, and once
    the configuration stops changing. */
module HotReloadTheorems {
  import opened Text
  import opened NotificationSettings
  import opened HotReload

  // --- safety, in every reachable state ---

  /** If the running runner is out of date, then a signal is waiting for the
      supervisor, a reload has still to send one, or the supervisor is about to
      take a new snapshot. */
  lemma NoReloadIsLost(defaults: Settings, s: State)
    requires Reachable(defaults, s) && Holds(s.sup) && s.published != []
    requires RestartNeeded(s.sup.snap, s.Now())
    ensures s.changes || NotifyDue(s) || s.sup.NewSettings? || s.sup.NewFingerprint?
    ensures s.sup.NewFingerprint? && !s.changes && !NotifyDue(s) ==> Compare(s).sup.Stopping?
  {
    ReachableInv(defaults, s);
  }

  function Running(s: State): set<nat> {
    set i: nat | i < |s.runners| && !s.runners[i].phase.Collected?
  }

  /** At most one call of `run` is unfinished or uncollected; there is none when
      superviseRun has returned, in particular when Start has. */
  lemma OneRunnerAtATime(defaults: Settings, s: State)
    requires Reachable(defaults, s)
    ensures |Running(s)| <= 1
    ensures !Live(s.sup) <==> Running(s) == {}
    ensures s.sup.Returned? ==> Running(s) == {}
  {
    ReachableInv(defaults, s);
    OnlyTheLastRuns(s);
  }

  lemma OnlyTheLastRuns(s: State)
    requires RunnersInOrder(s)
    ensures Running(s) == if Live(s.sup) then {|s.runners| - 1} else {}
  {
    forall i: nat | i < |s.runners|
      ensures s.runners[i].phase.Collected? || (Live(s.sup) && i == |s.runners| - 1)
    {
    }
  }

  /** Every configuration that is published or run with is valid; hence a runner
      in Kafka mode always makes a producer as well as a consumer. */
  lemma OnlyValidConfigsRun(defaults: Settings, s: State)
    requires Reachable(defaults, s)
    ensures Valid(s.settings)
    ensures forall i :: 0 <= i < |s.runners| ==>
              && Valid(s.runners[i].settings)
              && (s.runners[i].phase.Serving? && s.runners[i].settings.mode == KAFKA ==> |s.runners[i].got| == 2)
    ensures forall k :: k in s.published ==> Coherent(k)
  {
    ReachableInv(defaults, s);
  }

  /** If the Secret watcher acts on a name that is no longer the published one,
      then a reload signal is waiting for it or on its way. */
  lemma SecretWatcherFollows(defaults: Settings, s: State)
    requires Reachable(defaults, s) && s.published != []
    requires !s.watch.ReadName? && !s.watch.Recheck?
    requires (if s.watch.NoSecret? then "" else s.watch.name) != s.Kafka().secret
    ensures s.reload || SignalDue(s)
  {
    ReachableInv(defaults, s);
  }

  // --- quiescence ---

  /** Nothing is on its way to the supervisor, and its runner is up. */
  predicate Quiet(s: State) {
    && s.onConfigMap.Idle? && s.onSecret.Idle? && !s.changes && !s.ctxDone
    && s.sup.Supervising? && s.runners != [] && s.Last().phase.Serving?
  }

  lemma QuietIsUpToDate(defaults: Settings, s: State)
    requires Reachable(defaults, s) && Quiet(s)
    ensures s.published != []
    ensures s.Last().settings == s.settings
    ensures UsesKafka(s.settings) ==> s.sup.snap.fingerprint == s.Kafka().fingerprint
  {
    ReachableInv(defaults, s);
  }

  /** At rest, the supervisor's fingerprint is the published one if Kafka is in
      use, and the runner has read client configurations no older than it. */
  lemma QuietReads(defaults: Settings, s: State)
    requires Reachable(defaults, s) && Quiet(s)
    ensures s.published != [] && s.sup.at < |s.published| && s.Last().settings == s.settings
    ensures forall n :: n in s.Last().got ==> s.sup.at <= n < |s.published|
    ensures s.Last().got != [] ==> s.published[s.sup.at].fingerprint == s.Kafka().fingerprint
    ensures forall k :: k in s.published ==> Coherent(k)
  {
    ReachableInv(defaults, s);
  }

  // --- reloads ---

  lemma Then(defaults: Settings, s: State, actions: seq<Action>, m: State, a: Action)
    returns (all: seq<Action>, t: State)
    requires Run(defaults, s, actions, m) && m.published != [] && Enabled(m, a) && Answered(defaults, a)
    ensures t == Apply(m, a) && Run(defaults, s, all, t)
  {
    t := Apply(m, a);
    assert Run(defaults, t, [], t);
    assert [a][1..] == [];
    assert Run(defaults, m, [a], t);
    RunAppend(defaults, s, actions, m, [a], t);
    all := actions + [a];
  }

  /** Either goroutine can reload in every reachable state in which it is not doing
      so, the Secret's while it watches. If the reload succeeds then its settings, the
      name of the Secret and the data that was read are the published ones, and both
      signals are waiting. */
  lemma ReloadPublishes(defaults: Settings, s: State, who: Loader, answers: Answers)
    returns (actions: seq<Action>, t: State)
    requires Reachable(defaults, s) && s.published != []
    requires if who.OnConfigMap? then s.onConfigMap.Idle? else s.onSecret.Idle? && s.watch.Watching?
    requires LoadResult(defaults, answers).Some?
    ensures Run(defaults, s, actions, t)
    ensures SuppliesSettings(defaults, answers, t.settings)
    ensures t.published != [] && SuppliesKafka(answers, t.Kafka())
    ensures t.reload && (s.subscribed ==> t.changes)
    ensures t == s.(settings := t.settings, published := s.published + [t.Kafka()],
                    changes := s.changes || s.subscribed, reload := true)
  {
    LoadMeaning(defaults, answers);
    assert Run(defaults, s, [], s);
    hide Run, Reachable, SuppliesKafka, SuppliesSettings, LoadResult, Coherent;
    actions, t := Then(defaults, s, [], s, LoadAction(who, BeginLoad(answers, LoadResult(defaults, answers))));
    actions, t := Then(defaults, s, actions, t, LoadAction(who, WriteSettings));
    actions, t := Then(defaults, s, actions, t, LoadAction(who, WriteKafka));
    actions, t := Then(defaults, s, actions, t, LoadAction(who, Notify));
    actions, t := Then(defaults, s, actions, t, LoadAction(who, SignalReload));
  }

  // --- failures ---

  /** The runner gives up: it gets no producer, no consumer group, or the HTTP server
      ends. */
  predicate GivesUp(r: Runner, step: RunnerStep) {
    || (step == MakeProducer(false) && r.settings.brokers != [])
    || (step == Serve(false) && r.settings.mode == "kafka")
    || step == Fail
  }

  lemma GivingUp(s: State, step: RunnerStep)
    requires s.published != [] && !s.ctxDone && s.sup.Supervising? && s.runners != []
    requires RunnerEnabled(s, |s.runners| - 1, step) && GivesUp(s.Last(), step)
    ensures var t := ApplyRunner(s, |s.runners| - 1, step);
            && t == s.(runners := t.runners) && |t.runners| == |s.runners| && t.Last().phase == Exited(true)
            && SupEnabled(t, Collect)
            && ApplySup(t, Collect) == t.(sup := Backoff, runners := ApplySup(t, Collect).runners)
            && |ApplySup(t, Collect).runners| == |s.runners| && ApplySup(t, Collect).Last().phase.Collected?
  {
  }

  /** After the pause the supervisor starts anew. */
  lemma StartsAnew(defaults: Settings, s: State, actions: seq<Action>, m: State) returns (all: seq<Action>, t: State)
    requires Run(defaults, s, actions, m) && m.published != [] && m.sup == Backoff && !m.ctxDone
    ensures Run(defaults, s, all, t)
    ensures t == m.(sup := Supervising(m.Now(), |m.published| - 1),
                    runners := m.runners + [Runner(m.settings, Starting, false, [])])
  {
    hide Run;
    all, t := Then(defaults, s, actions, m, SupAction(EndBackoff));
    all, t := Then(defaults, s, all, t, SupAction(PassLoopHead));
    all, t := Then(defaults, s, all, t, SupAction(ReadSettings));
    all, t := Then(defaults, s, all, t, SupAction(ReadFingerprint));
  }

  /** A runner that gives up is replaced by one with the configuration published then,
      unless the adapter shuts down. */
  lemma FailedRunnerIsReplaced(defaults: Settings, s: State, step: RunnerStep) returns (actions: seq<Action>, t: State)
    requires s.published != [] && !s.ctxDone && s.sup.Supervising? && s.runners != []
    requires RunnerEnabled(s, |s.runners| - 1, step) && GivesUp(s.Last(), step)
    ensures Run(defaults, s, actions, t)
    ensures t.published == s.published && t.settings == s.settings
    ensures t.sup == Supervising(s.Now(), |s.published| - 1)
    ensures |t.runners| == |s.runners| + 1 && t.Last() == Runner(s.settings, Starting, false, [])
    ensures t.runners[|s.runners| - 1].phase.Collected?
  {
    GivingUp(s, step);
    assert Run(defaults, s, [], s);
    hide Run, ApplyRunner, ApplySup, RunnerEnabled, GivesUp;
    actions, t := Then(defaults, s, [], s, RunnerAction(|s.runners| - 1, step));
    actions, t := Then(defaults, s, actions, t, SupAction(Collect));
    actions, t := StartsAnew(defaults, s, actions, t);
  }

  // --- convergence ---

  /** The steps the adapter takes by itself: no new reload begins, the context is
      not cancelled, and no watch, producer, consumer or listener fails. */
  predicate Internal(a: Action) {
    match a
    case LoadAction(_, step) => !step.BeginLoad?
    case WatchAction(step) => step != EstablishWatch(false) && step != WatchClosed
    case SupAction(_) => true
    case RunnerAction(_, step) => step == MakeProducer(true) || step == Serve(true) || step == Exit
    case CancelContext => false
  }

  function LoadRank(load: Load): nat {
    match load
    case Idle => 0
    case Notified => 1
    case KafkaWritten => 2
    case SettingsWritten(_) => 3
    case Parsed(_, _) => 4
  }

  function WatchRank(w: Watch): nat {
    match w
    case NoSecret => 0
    case Watching(_) => 0
    case Establish(_) => 1
    case ReadName => 2
    case Recheck(_) => 3
  }

  function PhaseRank(p: Phase): nat {
    match p
    case Starting => 3
    case ProducerDone => 2
    case Serving => 1
    case Exited(_) => 0
    case Collected => 0
  }

  function SupRank(s: State): nat {
    match s.sup
    case Returned => 0
    case Leaving => 1
    case Supervising(_, _) => if s.runners != [] && s.Last().phase.Exited? && !s.ctxDone then 10 else 2
    case SnapFingerprint(_) => 6
    case SnapSettings => 7
    case LoopHead => 8
    case Backoff => 9
    case Stopping => 9
    case Subscribing => 9
    case NewFingerprint(_, _, _) => 11
    case NewSettings(_, _) => 12
  }

  function Measure(s: State): nat {
    40 * LoadRank(s.onConfigMap) + 40 * LoadRank(s.onSecret)
    + (if s.changes then 24 else 0) + (if s.reload then 8 else 0)
    + WatchRank(s.watch) + SupRank(s)
    + if s.runners == [] then 0 else PhaseRank(s.Last().phase)
  }

  lemma LoadStepDecreases(s: State, who: Loader, step: LoadStep)
    requires Inv(s) && LoadEnabled(s, who, step) && !step.BeginLoad?
    ensures Measure(ApplyLoad(s, who, step)) < Measure(s)
  {
  }

  lemma WatchStepDecreases(s: State, step: WatchStep)
    requires Inv(s) && WatchEnabled(s, step) && Internal(WatchAction(step))
    ensures Measure(ApplyWatch(s, step)) < Measure(s)
  {
  }

  lemma SupStepDecreases(s: State, step: SupStep)
    requires Inv(s) && SupEnabled(s, step)
    ensures Measure(ApplySup(s, step)) < Measure(s)
  {
    match step
    case ReadFingerprint => ReadFingerprintDecreases(s);
    case Collect => CollectDecreases(s);
    case _ =>
  }

  lemma ReadFingerprintDecreases(s: State)
    requires Inv(s) && SupEnabled(s, ReadFingerprint)
    ensures Measure(ApplySup(s, ReadFingerprint)) < Measure(s)
  {
  }

  lemma CollectDecreases(s: State)
    requires Inv(s) && SupEnabled(s, Collect)
    ensures Measure(ApplySup(s, Collect)) < Measure(s)
  {
  }

  lemma RunnerStepDecreases(s: State, i: nat, step: RunnerStep)
    requires Inv(s) && RunnerEnabled(s, i, step) && Internal(RunnerAction(i, step))
    ensures Measure(ApplyRunner(s, i, step)) < Measure(s)
  {
    assert i == |s.runners| - 1;
  }

  lemma InternalStepDecreases(s: State, a: Action)
    requires Inv(s) && Enabled(s, a) && Internal(a)
    ensures Measure(Apply(s, a)) < Measure(s)
  {
    match a
    case LoadAction(who, step) => LoadStepDecreases(s, who, step);
    case WatchAction(step) => WatchStepDecreases(s, step);
    case SupAction(step) => SupStepDecreases(s, step);
    case RunnerAction(i, step) => RunnerStepDecreases(s, i, step);
  }

  /** However the adapter's own steps are scheduled, there are at most
      Measure(s) of them. */
  lemma {:induction false} InternalRunsEnd(defaults: Settings, s: State, actions: seq<Action>, t: State)
    requires Inv(s) && Run(defaults, s, actions, t)
    requires forall a :: a in actions ==> Internal(a)
    ensures |actions| + Measure(t) <= Measure(s)
    decreases |actions|
  {
    if actions != [] {
      InternalStepDecreases(s, actions[0]);
      StepInv(s, actions[0]);
      InternalRunsEnd(defaults, Apply(s, actions[0]), actions[1..], t);
    }
  }

  ghost predicate Settled(s: State) {
    forall a: Action :: Internal(a) ==> !Enabled(s, a)
  }

  predicate WatchesPublished(s: State)
    requires s.published != []
  {
    if s.Kafka().secret == "" then s.watch.NoSecret? else s.watch == Watching(s.Kafka().secret)
  }

  /** When the adapter has no step of its own left, it has either shut down or
      runs with the published configuration and watches the published Secret. */
  lemma SettledShape(s: State)
    requires Inv(s) && Settled(s)
    ensures s.ctxDone ==> s.sup.Returned?
    ensures !s.ctxDone ==> Quiet(s)
    ensures s.onConfigMap.Idle? && s.onSecret.Idle?
    ensures !s.ctxDone ==> !s.reload && WatchesPublished(s)
  {
    forall who: Loader ensures s.LoadOf(who).Idle? {
      assert !Enabled(s, LoadAction(who, WriteSettings)) && !Enabled(s, LoadAction(who, WriteKafka));
      assert !Enabled(s, LoadAction(who, Notify)) && !Enabled(s, LoadAction(who, SignalReload));
    }
    assert s.LoadOf(OnConfigMap).Idle? && s.LoadOf(OnSecret).Idle?;
    assert !Enabled(s, WatchAction(ReadSecretName)) && !Enabled(s, WatchAction(EstablishWatch(true)));
    assert !Enabled(s, WatchAction(Wake)) && !Enabled(s, WatchAction(TakeSignal));
    assert !Enabled(s, WatchAction(RecheckName));
    SettledSupervisor(s);
  }

  lemma SettledSupervisor(s: State)
    requires Inv(s) && Settled(s)
    ensures (s.sup.Returned? && s.ctxDone)
            || (s.sup.Supervising? && !s.changes && !s.ctxDone && s.runners != [] && s.Last().phase.Serving?)
  {
    assert !Enabled(s, SupAction(Subscribe)) && !Enabled(s, SupAction(PassLoopHead));
    assert !Enabled(s, SupAction(ReadSettings)) && !Enabled(s, SupAction(ReadFingerprint));
    assert !Enabled(s, SupAction(TakeChange)) && !Enabled(s, SupAction(SeeDone));
    assert !Enabled(s, SupAction(Collect)) && !Enabled(s, SupAction(EndBackoff));
    if s.runners != [] {
      var i := |s.runners| - 1;
      assert !Enabled(s, RunnerAction(i, MakeProducer(true))) && !Enabled(s, RunnerAction(i, Serve(true)));
      assert !Enabled(s, RunnerAction(i, Exit));
    }
  }

  /** Every change takes effect: from any reachable state, the adapter's own
      steps come to an end in whatever order they are scheduled, and then the
      adapter has shut down with no runner left, or its one runner has the
      published settings and was started from the published credentials. */
  lemma EveryChangeTakesEffect(defaults: Settings, s: State, actions: seq<Action>, t: State)
    requires Reachable(defaults, s) && Run(defaults, s, actions, t) && Settled(t)
    requires forall a :: a in actions ==> Internal(a)
    ensures |actions| <= Measure(s)
    ensures t.published != []
    ensures if t.ctxDone then t.sup.Returned? && Running(t) == {}
            else Quiet(t) && t.Last().settings == t.settings
                 && (UsesKafka(t.settings) ==> t.sup.snap.fingerprint == t.Kafka().fingerprint)
                 && WatchesPublished(t)
  {
    ReachableInv(defaults, s);
    InternalRunsEnd(defaults, s, actions, t);
    RunInv(defaults, s, actions, t);
    SettledShape(t);
    StillReachable(defaults, s, actions, t);
    OneRunnerAtATime(defaults, t);
    QuietWhenSettled(defaults, t);
  }

  lemma StillReachable(defaults: Settings, s: State, actions: seq<Action>, t: State)
    requires Reachable(defaults, s) && Run(defaults, s, actions, t)
    ensures Reachable(defaults, t)
  {
    var s0: State, before: seq<Action> :| Init(defaults, s0) && Run(defaults, s0, before, s);
    RunAppend(defaults, s0, before, s, actions, t);
  }

  lemma QuietWhenSettled(defaults: Settings, t: State)
    requires Reachable(defaults, t)
    ensures t.published != []
    ensures Quiet(t) ==> t.Last().settings == t.settings
    ensures Quiet(t) && UsesKafka(t.settings) ==> t.sup.snap.fingerprint == t.Kafka().fingerprint
  {
    ReachableInv(defaults, t);
    if Quiet(t) {
      QuietIsUpToDate(defaults, t);
    }
  }

  /** Such an end is always within reach. */
  lemma {:induction false} Settle(defaults: Settings, s: State) returns (actions: seq<Action>, t: State)
    requires Inv(s)
    ensures Run(defaults, s, actions, t) && Settled(t)
    ensures forall a :: a in actions ==> Internal(a)
    decreases Measure(s)
  {
    if a: Action :| Internal(a) && Enabled(s, a) {
      InternalStepDecreases(s, a);
      StepInv(s, a);
      actions, t := Settle(defaults, Apply(s, a));
      assert ([a] + actions)[1..] == actions;
      actions := [a] + actions;
    } else {
      actions, t := [], s;
    }
  }

  /** The adapter can be shut down in every reachable state, and then ends without a
      runner. */
  lemma ShutsDown(defaults: Settings, s: State) returns (actions: seq<Action>, t: State)
    requires Reachable(defaults, s) && s.published != [] && !s.ctxDone
    ensures Run(defaults, s, [CancelContext] + actions, t)
    ensures forall a :: a in actions ==> Internal(a)
    ensures t.sup.Returned? && Running(t) == {}
  {
    var m := s.(ctxDone := true);
    assert Enabled(s, CancelContext) && Apply(s, CancelContext) == m;
    assert [CancelContext][1..] == [] && Run(defaults, m, [], m);
    assert Run(defaults, s, [CancelContext], m);
    StillReachable(defaults, s, [CancelContext], m);
    ReachableInv(defaults, m);
    actions, t := Settle(defaults, m);
    EveryChangeTakesEffect(defaults, m, actions, t);
    ContextStaysDone(defaults, m, actions, t);
    RunAppend(defaults, s, [CancelContext], m, actions, t);
  }

  lemma {:induction false} ContextStaysDone(defaults: Settings, s: State, actions: seq<Action>, t: State)
    requires Run(defaults, s, actions, t) && s.ctxDone
    ensures t.ctxDone
    decreases |actions|
  {
    if actions != [] {
      ContextStaysDone(defaults, Apply(s, actions[0]), actions[1..], t);
    }
  }
}
