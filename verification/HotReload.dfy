/** The hot-reload protocol of the objectbucket-notifications adapter, as a
    system of steps that interleave freely. One step is one critical section,
    channel operation or external outcome of

      - the goroutine that watches the ConfigMap and reloads on every change,
      - the goroutine that watches the referenced Secret and reloads as well,
      - the supervisor, which snapshots the configuration, starts a runner and
        replaces it when the configuration moves on,
      - the runners it has started.

    Channels of capacity one that are written without blocking are booleans. */
module HotReload {
  import opened Text
  import opened NotificationSettings
  import Fingerprint

  // --- what a reload publishes ---

  /** The client configuration is built from the data of the Secret alone. */
  datatype KafkaConfig = KafkaConfig(data: map<string, string>)

  /** The three fields guarded by kafkaConfigMu, always written together. */
  datatype Kafka = Kafka(config: KafkaConfig, secret: string, fingerprint: string)

  ghost function KafkaFrom(secret: string, data: map<string, string>): Kafka {
    Kafka(KafkaConfig(data), secret, Fingerprint.Preimage(secret, data))
  }

  ghost predicate Coherent(k: Kafka) {
    k == KafkaFrom(k.secret, k.config.data)
  }

  /** What the API server answers during one reload. `configMap` is None when the
      ConfigMap cannot be read or an adapter pattern does not compile; `secret`
      is None when the referenced Secret cannot be read or makes no client
      configuration. */
  datatype Answers = Answers(configMap: Option<ConfigData>, secret: Option<map<string, string>>)

  datatype Loaded = Loaded(settings: Settings, kafka: Kafka)

  function SecretName(data: ConfigData): string {
    if SECRET_KEY in data then data[SECRET_KEY] else ""
  }

  /** The part of a reload that precedes the first write. */
  ghost function LoadResult(defaults: Settings, answers: Answers): Option<Loaded> {
    if answers.configMap.None? then None
    else
      var data := answers.configMap.value;
      var parsed := Parse(data, defaults);
      if parsed.Err? then None
      else if SecretName(data) == "" then Some(Loaded(parsed.value, KafkaFrom("", map[])))
      else if answers.secret.None? then None
      else Some(Loaded(parsed.value, KafkaFrom(SecretName(data), answers.secret.value)))
  }

  /** These are the settings that the ConfigMap asks for. */
  predicate SuppliesSettings(defaults: Settings, answers: Answers, s: Settings) {
    answers.configMap.Some? && Parse(answers.configMap.value, defaults) == Ok(s)
  }

  /** The name is the one in the ConfigMap, and the data that of the Secret that was
      read for it; without a name there is no data. */
  predicate SuppliesKafka(answers: Answers, k: Kafka) {
    && answers.configMap.Some?
    && var data := answers.configMap.value;
       if SECRET_KEY in data && data[SECRET_KEY] != ""
       then k.secret == data[SECRET_KEY] && answers.secret == Some(k.config.data)
       else k.secret == "" && k.config.data == map[]
  }

  /** A reload succeeds exactly if the ConfigMap can be read, its settings are valid,
      and a Secret that it names can be read as well; and then it loads just that. */
  lemma LoadMeaning(defaults: Settings, answers: Answers)
    ensures LoadResult(defaults, answers).Some? <==>
              && answers.configMap.Some?
              && var data := answers.configMap.value;
                 && Parse(data, defaults).Ok?
                 && (SECRET_KEY in data && data[SECRET_KEY] != "" ==> answers.secret.Some?)
    ensures LoadResult(defaults, answers).Some? ==>
              && SuppliesSettings(defaults, answers, LoadResult(defaults, answers).value.settings)
              && SuppliesKafka(answers, LoadResult(defaults, answers).value.kafka)
              && Coherent(LoadResult(defaults, answers).value.kafka)
  {
  }

  // --- state ---

  datatype Loader = OnConfigMap | OnSecret

  /** Where a goroutine is inside a reload. */
  datatype Load =
    | Idle
    | Parsed(settings: Settings, kafka: Kafka)
    | SettingsWritten(kafka: Kafka)
    | KafkaWritten
    | Notified

  /** Where the Secret watcher is. It reloads only while `Watching`. */
  datatype Watch =
    | ReadName
    | NoSecret
    | Establish(name: string)
    | Watching(name: string)
    | Recheck(name: string)

  /** Where the supervisor is. `at` is the number of the publication its
      fingerprint was read from. */
  datatype Supervisor =
    | Subscribing
    | LoopHead
    | SnapSettings
    | SnapFingerprint(settings: Settings)
    | Supervising(snap: Snapshot, at: nat)
    | NewSettings(snap: Snapshot, at: nat)
    | NewFingerprint(snap: Snapshot, at: nat, settings: Settings)
    | Stopping
    | Leaving
    | Backoff
    | Returned

  datatype Phase = Starting | ProducerDone | Serving | Exited(failed: bool) | Collected

  /** A call of `run`. `got` numbers the publications whose client
      configuration it has read, in order. */
  datatype Runner = Runner(settings: Settings, phase: Phase, cancelled: bool, got: seq<nat>)

  datatype State = State(
    settings: Settings,
    published: seq<Kafka>,       // every Kafka triple so far, the current one last
    changes: bool,               // the supervisor's subscription holds a signal
    subscribed: bool,
    reload: bool,                // reloadSignal holds a signal
    onConfigMap: Load,
    onSecret: Load,
    watch: Watch,
    sup: Supervisor,
    runners: seq<Runner>,        // in the order they were started
    ctxDone: bool)
  {
    function Kafka(): Kafka
      requires published != []
    {
      published[|published| - 1]
    }

    function Now(): Snapshot
      requires published != []
    {
      Snapshot(settings, Kafka().fingerprint)
    }

    function LoadOf(who: Loader): Load {
      if who.OnConfigMap? then onConfigMap else onSecret
    }

    function SetLoad(who: Loader, load: Load): State {
      if who.OnConfigMap? then this.(onConfigMap := load) else this.(onSecret := load)
    }

    function Last(): Runner
      requires runners != []
    {
      runners[|runners| - 1]
    }
  }

  /** NewProvider loads once before any goroutine exists or anyone subscribes. */
  ghost predicate Init(defaults: Settings, s: State) {
    exists answers: Answers :: InitFrom(defaults, answers, s)
  }

  ghost predicate InitFrom(defaults: Settings, answers: Answers, s: State) {
    && LoadResult(defaults, answers).Some?
    && var loaded := LoadResult(defaults, answers).value;
       s == State(loaded.settings, [loaded.kafka], false, false, true, Idle, Idle, ReadName, Subscribing, [], false)
  }

  // --- steps ---

  /** loadConfig, one critical section or channel operation at a time. */
  datatype LoadStep =
    | BeginLoad(answers: Answers, result: Option<Loaded>)
    | WriteSettings | WriteKafka | Notify | SignalReload

  /** watchSecret and consumeSecretEvents. */
  datatype WatchStep = ReadSecretName | EstablishWatch(ok: bool) | Wake | TakeSignal | RecheckName | WatchClosed

  /** Start and superviseRun. */
  datatype SupStep =
    Subscribe | PassLoopHead | ReadSettings | ReadFingerprint | TakeChange | SeeDone | Collect | EndBackoff

  /** run. */
  datatype RunnerStep = MakeProducer(ok: bool) | Serve(ok: bool) | Exit | Fail

  datatype Action =
    | LoadAction(who: Loader, load: LoadStep)
    | WatchAction(watch: WatchStep)
    | SupAction(sup: SupStep)
    | RunnerAction(i: nat, step: RunnerStep)
    | CancelContext

  predicate LoadEnabled(s: State, who: Loader, step: LoadStep) {
    match step
    case BeginLoad(_, _) => s.LoadOf(who).Idle? && (who.OnSecret? ==> s.watch.Watching?)
    case WriteSettings => s.LoadOf(who).Parsed?
    case WriteKafka => s.LoadOf(who).SettingsWritten?
    case Notify => s.LoadOf(who).KafkaWritten?
    case SignalReload => s.LoadOf(who).Notified?
  }

  /** A reload that fails changes nothing. */
  function ApplyLoad(s: State, who: Loader, step: LoadStep): State
    requires LoadEnabled(s, who, step)
  {
    match step
    case BeginLoad(_, result) =>
      if result.None? then s else s.SetLoad(who, Parsed(result.value.settings, result.value.kafka))
    case WriteSettings =>
      s.(settings := s.LoadOf(who).settings).SetLoad(who, SettingsWritten(s.LoadOf(who).kafka))
    case WriteKafka =>
      s.(published := s.published + [s.LoadOf(who).kafka]).SetLoad(who, KafkaWritten)
    case Notify =>
      s.(changes := s.changes || s.subscribed).SetLoad(who, Notified)
    case SignalReload =>
      s.(reload := true).SetLoad(who, Idle)
  }

  predicate WatchEnabled(s: State, step: WatchStep) {
    match step
    case ReadSecretName => s.watch.ReadName?
    case EstablishWatch(_) => s.watch.Establish?
    case Wake => s.watch.NoSecret? && s.reload
    case TakeSignal => s.watch.Watching? && s.onSecret.Idle? && s.reload
    case RecheckName => s.watch.Recheck?
    case WatchClosed => s.watch.Watching? && s.onSecret.Idle?
  }

  function ApplyWatch(s: State, step: WatchStep): State
    requires s.published != [] && WatchEnabled(s, step)
  {
    match step
    case ReadSecretName =>
      s.(watch := if s.Kafka().secret == "" then NoSecret else Establish(s.Kafka().secret))
    case EstablishWatch(ok) => s.(watch := if ok then Watching(s.watch.name) else ReadName)
    case Wake => s.(reload := false, watch := ReadName)
    case TakeSignal => s.(reload := false, watch := Recheck(s.watch.name))
    case RecheckName =>
      s.(watch := if s.Kafka().secret != s.watch.name then ReadName else Watching(s.watch.name))
    case WatchClosed => s.(watch := ReadName)
  }

  predicate SupEnabled(s: State, step: SupStep) {
    match step
    case Subscribe => s.sup.Subscribing?
    case PassLoopHead => s.sup.LoopHead?
    case ReadSettings => s.sup.SnapSettings? || s.sup.NewSettings?
    case ReadFingerprint => s.sup.SnapFingerprint? || s.sup.NewFingerprint?
    case TakeChange => s.sup.Supervising? && s.changes
    case SeeDone => s.sup.Supervising? && s.ctxDone
    case Collect =>
      && (s.sup.Supervising? || s.sup.Stopping? || s.sup.Leaving?)
      && s.runners != [] && s.Last().phase.Exited?
    case EndBackoff => s.sup.Backoff?
  }

  function ApplySup(s: State, step: SupStep): State
    requires s.published != [] && SupEnabled(s, step)
  {
    match step
    case Subscribe => s.(subscribed := true, sup := LoopHead)
    case PassLoopHead => s.(sup := if s.ctxDone then Returned else SnapSettings)
    case ReadSettings =>
      s.(sup := if s.sup.SnapSettings? then SnapFingerprint(s.settings)
                else NewFingerprint(s.sup.snap, s.sup.at, s.settings))
    case ReadFingerprint => if s.sup.SnapFingerprint? then StartRunner(s) else Compare(s)
    case TakeChange => s.(changes := false, sup := NewSettings(s.sup.snap, s.sup.at))
    case SeeDone => s.(sup := Leaving)
    case Collect =>
      var sup := if s.sup.Leaving? || (s.sup.Supervising? && s.ctxDone) then Returned
                 else if s.sup.Supervising? && s.Last().phase.failed then Backoff
                 else LoopHead;
      s.(sup := sup, runners := s.runners[|s.runners| - 1 := s.Last().(phase := Collected)])
    case EndBackoff => s.(sup := if s.ctxDone then Returned else LoopHead)
  }

  function StartRunner(s: State): State
    requires s.published != [] && s.sup.SnapFingerprint?
  {
    s.(sup := Supervising(Snapshot(s.sup.settings, s.Kafka().fingerprint), |s.published| - 1),
       runners := s.runners + [Runner(s.sup.settings, Starting, false, [])])
  }

  /** The supervisor compares with the snapshot its runner was started from, and
      keeps that snapshot when no restart is needed. */
  function Compare(s: State): State
    requires s.published != [] && s.sup.NewFingerprint?
  {
    if !RestartNeeded(s.sup.snap, Snapshot(s.sup.settings, s.Kafka().fingerprint)) then
      s.(sup := Supervising(s.sup.snap, s.sup.at))
    else if s.runners == [] then
      s.(sup := Stopping)
    else
      s.(sup := Stopping, runners := s.runners[|s.runners| - 1 := s.Last().(cancelled := true)])
  }

  predicate RunnerEnabled(s: State, i: nat, step: RunnerStep) {
    && i < |s.runners|
    && var r := s.runners[i];
       match step
       case MakeProducer(_) => r.phase.Starting?
       case Serve(_) => r.phase.ProducerDone?
       case Exit => r.phase.Serving? && (r.cancelled || s.ctxDone)
       case Fail => r.phase.Serving? && r.settings.mode != KAFKA
  }

  /** `run` reads the client configuration when it makes a producer, and again
      when it makes a consumer group. */
  function ApplyRunner(s: State, i: nat, step: RunnerStep): State
    requires s.published != [] && RunnerEnabled(s, i, step)
  {
    var r := s.runners[i];
    var got := r.got + [|s.published| - 1];
    var r' := match step
      case MakeProducer(ok) =>
        if r.settings.brokers == [] then r.(phase := ProducerDone)
        else r.(phase := if ok then ProducerDone else Exited(true), got := got)
      case Serve(ok) =>
        if r.settings.mode != KAFKA then r.(phase := Serving)
        else r.(phase := if ok then Serving else Exited(true), got := got)
      case Exit => r.(phase := Exited(false))
      case Fail => r.(phase := Exited(true));
    s.(runners := s.runners[i := r'])
  }

  predicate Enabled(s: State, a: Action) {
    match a
    case LoadAction(who, step) => LoadEnabled(s, who, step)
    case WatchAction(step) => WatchEnabled(s, step)
    case SupAction(step) => SupEnabled(s, step)
    case RunnerAction(i, step) => RunnerEnabled(s, i, step)
    case CancelContext => !s.ctxDone
  }

  function Apply(s: State, a: Action): State
    requires s.published != [] && Enabled(s, a)
  {
    match a
    case LoadAction(who, step) => ApplyLoad(s, who, step)
    case WatchAction(step) => ApplyWatch(s, step)
    case SupAction(step) => ApplySup(s, step)
    case RunnerAction(i, step) => ApplyRunner(s, i, step)
    case CancelContext => s.(ctxDone := true)
  }

  /** The outcome of a reload is what the answers it got give. */
  ghost predicate Answered(defaults: Settings, a: Action) {
    a.LoadAction? && a.load.BeginLoad? ==> a.load.result == LoadResult(defaults, a.load.answers)
  }

  /** `actions` leads from `s` to `t`. */
  ghost predicate Run(defaults: Settings, s: State, actions: seq<Action>, t: State)
    decreases |actions|
  {
    if actions == [] then s == t
    else
      && s.published != [] && Enabled(s, actions[0]) && Answered(defaults, actions[0])
      && Run(defaults, Apply(s, actions[0]), actions[1..], t)
  }

  ghost predicate Reachable(defaults: Settings, s: State) {
    exists s0: State, actions: seq<Action> :: Init(defaults, s0) && Run(defaults, s0, actions, s)
  }

  lemma {:induction false} RunAppend(defaults: Settings, s: State, a: seq<Action>, t: State, b: seq<Action>, u: State)
    requires Run(defaults, s, a, t) && Run(defaults, t, b, u)
    ensures Run(defaults, s, a + b, u)
    decreases |a|
  {
    if a == [] {
      assert a + b == b;
    } else {
      RunAppend(defaults, Apply(s, a[0]), a[1..], t, b, u);
      assert (a + b)[1..] == a[1..] + b;
    }
  }

  // --- invariants ---

  ghost predicate LoadHolds(load: Load, p: Settings -> bool, q: Kafka -> bool) {
    && (load.Parsed? ==> p(load.settings) && q(load.kafka))
    && (load.SettingsWritten? ==> q(load.kafka))
  }

  /** Every settings value that is published, about to be published, or run
      with satisfies `p`, and every Kafka triple likewise `q`. */
  ghost predicate Everywhere(s: State, p: Settings -> bool, q: Kafka -> bool) {
    && p(s.settings)
    && (forall k :: k in s.published ==> q(k))
    && LoadHolds(s.onConfigMap, p, q)
    && LoadHolds(s.onSecret, p, q)
    && (s.sup.SnapFingerprint? || s.sup.NewFingerprint? ==> p(s.sup.settings))
    && (forall i :: 0 <= i < |s.runners| ==> p(s.runners[i].settings))
  }

  ghost predicate ConfigsValid(s: State) {
    Everywhere(s, x => Valid(x), k => Coherent(k))
  }

  predicate Live(sup: Supervisor) {
    sup.Supervising? || sup.NewSettings? || sup.NewFingerprint? || sup.Stopping? || sup.Leaving?
  }

  predicate Holds(sup: Supervisor) {
    sup.Supervising? || sup.NewSettings? || sup.NewFingerprint?
  }

  /** At most the newest runner is live; it is live exactly while the supervisor
      is responsible for one, and was started from the supervisor's snapshot. */
  predicate RunnersInOrder(s: State) {
    && (forall i :: 0 <= i < |s.runners| - 1 ==> s.runners[i].phase.Collected?)
    && (Live(s.sup) <==> s.runners != [] && !s.Last().phase.Collected?)
    && (s.sup.Stopping? ==> s.Last().cancelled)
    && (s.sup.Leaving? || s.sup.Returned? ==> s.ctxDone)
    && (Holds(s.sup) ==> s.Last().settings == s.sup.snap.settings && !s.Last().cancelled)
  }

  /** What a runner has read depends on how far it has come. */
  predicate GotMatchesPhase(r: Runner) {
    var afterProducer := if r.settings.brokers == [] then 0 else 1;
    && (r.phase.Starting? ==> |r.got| == 0)
    && (r.phase.ProducerDone? ==> |r.got| == afterProducer)
    && (r.phase.Serving? ==> |r.got| == afterProducer + if r.settings.mode == KAFKA then 1 else 0)
  }

  /** The supervisor's fingerprint comes from publication `at`, and its runner
      has read only that one or later ones. */
  predicate GotRecorded(s: State) {
    && (forall i :: 0 <= i < |s.runners| ==> GotMatchesPhase(s.runners[i]))
    && (Holds(s.sup) ==>
          && s.sup.at < |s.published|
          && s.published[s.sup.at].fingerprint == s.sup.snap.fingerprint
          && (s.runners != [] ==>
                forall j :: 0 <= j < |s.Last().got| ==> s.sup.at <= s.Last().got[j] < |s.published|))
  }

  /** A reload is between its first write and its notification. */
  predicate NotifyDue(s: State) {
    || s.onConfigMap.SettingsWritten? || s.onConfigMap.KafkaWritten?
    || s.onSecret.SettingsWritten? || s.onSecret.KafkaWritten?
  }

  /** No change is lost: the supervisor's knowledge may be out of date only while
      a signal is waiting for it or on its way. */
  predicate NoLostWakeup(s: State)
    requires s.published != []
  {
    && (s.sup.Supervising? && RestartNeeded(s.sup.snap, s.Now()) ==> s.changes || NotifyDue(s))
    && (s.sup.SnapFingerprint? || s.sup.NewFingerprint? ==>
          s.sup.settings == s.settings || s.changes || NotifyDue(s))
    && (s.subscribed <==> !s.sup.Subscribing?)
  }

  /** A reload has written a Secret name and has still to signal it. */
  predicate SignalDue(s: State) {
    || s.onConfigMap.KafkaWritten? || s.onConfigMap.Notified?
    || s.onSecret.KafkaWritten? || s.onSecret.Notified?
  }

  /** The name the Secret watcher acts on, unless it is about to read it afresh. */
  function WatchedName(w: Watch): Option<string> {
    match w
    case ReadName => None
    case Recheck(_) => None
    case NoSecret => Some("")
    case Establish(name) => Some(name)
    case Watching(name) => Some(name)
  }

  predicate WatchFollows(s: State)
    requires s.published != []
  {
    && (WatchedName(s.watch).Some? && WatchedName(s.watch).value != s.Kafka().secret ==> s.reload || SignalDue(s))
    && (s.watch.Establish? || s.watch.Watching? || s.watch.Recheck? ==> s.watch.name != "")
    && (s.onSecret.Idle? || s.watch.Watching?)
  }

  ghost predicate Inv(s: State) {
    && s.published != []
    && RunnersInOrder(s)
    && GotRecorded(s)
    && NoLostWakeup(s)
    && WatchFollows(s)
  }

  lemma LoadStepInv(s: State, who: Loader, step: LoadStep)
    requires Inv(s) && LoadEnabled(s, who, step)
    ensures Inv(ApplyLoad(s, who, step))
  {
  }

  lemma WatchStepInv(s: State, step: WatchStep)
    requires Inv(s) && WatchEnabled(s, step)
    ensures Inv(ApplyWatch(s, step))
  {
  }

  lemma StartRunnerInv(s: State)
    requires Inv(s) && s.sup.SnapFingerprint?
    ensures Inv(StartRunner(s))
  {
  }

  lemma CompareInv(s: State)
    requires Inv(s) && s.sup.NewFingerprint?
    ensures Inv(Compare(s))
  {
  }

  lemma CollectInv(s: State)
    requires Inv(s) && SupEnabled(s, Collect)
    ensures Inv(ApplySup(s, Collect))
  {
  }

  lemma SupStepInv(s: State, step: SupStep)
    requires Inv(s) && SupEnabled(s, step)
    ensures Inv(ApplySup(s, step))
  {
    match step
    case ReadFingerprint =>
      if s.sup.SnapFingerprint? { StartRunnerInv(s); } else { CompareInv(s); }
    case Collect => CollectInv(s);
    case _ =>
  }

  lemma RunnerStepInv(s: State, i: nat, step: RunnerStep)
    requires Inv(s) && RunnerEnabled(s, i, step)
    ensures Inv(ApplyRunner(s, i, step))
  {
  }

  lemma StepInv(s: State, a: Action)
    requires Inv(s) && Enabled(s, a)
    ensures Inv(Apply(s, a))
  {
    match a
    case LoadAction(who, step) => LoadStepInv(s, who, step);
    case WatchAction(step) => WatchStepInv(s, step);
    case SupAction(step) => SupStepInv(s, step);
    case RunnerAction(i, step) => RunnerStepInv(s, i, step);
    case CancelContext =>
  }

  lemma LoadResultValid(defaults: Settings, answers: Answers)
    requires LoadResult(defaults, answers).Some?
    ensures Valid(LoadResult(defaults, answers).value.settings)
    ensures Coherent(LoadResult(defaults, answers).value.kafka)
  {
    ParseAcceptsExactlyValid(answers.configMap.value, defaults);
  }

  lemma InitInv(defaults: Settings, s: State)
    requires Init(defaults, s)
    ensures Inv(s) && ConfigsValid(s)
  {
    var answers: Answers :| InitFrom(defaults, answers, s);
    LoadResultValid(defaults, answers);
  }

  lemma LoadStepEverywhere(s: State, who: Loader, step: LoadStep, p: Settings -> bool, q: Kafka -> bool)
    requires Inv(s) && LoadEnabled(s, who, step) && Everywhere(s, p, q)
    requires step.BeginLoad? && step.result.Some? ==> p(step.result.value.settings) && q(step.result.value.kafka)
    ensures Everywhere(ApplyLoad(s, who, step), p, q)
  {
  }

  lemma WatchStepEverywhere(s: State, step: WatchStep, p: Settings -> bool, q: Kafka -> bool)
    requires Inv(s) && WatchEnabled(s, step) && Everywhere(s, p, q)
    ensures Everywhere(ApplyWatch(s, step), p, q)
  {
  }

  lemma RunnerStepEverywhere(s: State, i: nat, step: RunnerStep, p: Settings -> bool, q: Kafka -> bool)
    requires Inv(s) && RunnerEnabled(s, i, step) && Everywhere(s, p, q)
    ensures Everywhere(ApplyRunner(s, i, step), p, q)
  {
  }

  lemma SupStepEverywhere(s: State, step: SupStep, p: Settings -> bool, q: Kafka -> bool)
    requires Inv(s) && SupEnabled(s, step) && Everywhere(s, p, q)
    ensures Everywhere(ApplySup(s, step), p, q)
  {
  }

  lemma StepEverywhere(s: State, a: Action, p: Settings -> bool, q: Kafka -> bool)
    requires Inv(s) && Enabled(s, a) && Everywhere(s, p, q)
    requires a.LoadAction? && a.load.BeginLoad? && a.load.result.Some? ==>
               p(a.load.result.value.settings) && q(a.load.result.value.kafka)
    ensures Everywhere(Apply(s, a), p, q)
  {
    match a
    case LoadAction(who, step) => LoadStepEverywhere(s, who, step, p, q);
    case WatchAction(step) => WatchStepEverywhere(s, step, p, q);
    case SupAction(step) => SupStepEverywhere(s, step, p, q);
    case RunnerAction(i, step) => RunnerStepEverywhere(s, i, step, p, q);
    case CancelContext =>
  }

  lemma StepConfigsValid(defaults: Settings, s: State, a: Action)
    requires Inv(s) && ConfigsValid(s) && Enabled(s, a) && Answered(defaults, a)
    ensures ConfigsValid(Apply(s, a))
  {
    if a.LoadAction? && a.load.BeginLoad? && a.load.result.Some? {
      LoadResultValid(defaults, a.load.answers);
    }
    StepEverywhere(s, a, x => Valid(x), k => Coherent(k));
  }

  lemma {:induction false} RunInv(defaults: Settings, s: State, actions: seq<Action>, t: State)
    requires Inv(s) && ConfigsValid(s) && Run(defaults, s, actions, t)
    ensures Inv(t) && ConfigsValid(t)
    decreases |actions|
  {
    if actions != [] {
      StepInv(s, actions[0]);
      StepConfigsValid(defaults, s, actions[0]);
      RunInv(defaults, Apply(s, actions[0]), actions[1..], t);
    }
  }

  lemma ReachableInv(defaults: Settings, s: State)
    requires Reachable(defaults, s)
    ensures Inv(s) && ConfigsValid(s)
  {
    var s0: State, actions: seq<Action> :| Init(defaults, s0) && Run(defaults, s0, actions, s);
    InitInv(defaults, s0);
    RunInv(defaults, s0, actions, s);
  }

  // --- where the published configuration comes from ---

  lemma {:induction false} RunEverywhere(defaults: Settings, s: State, actions: seq<Action>, t: State,
                                         p: Settings -> bool, q: Kafka -> bool)
    requires Inv(s) && Everywhere(s, p, q) && Run(defaults, s, actions, t)
    requires forall a :: a in actions && a.LoadAction? && a.load.BeginLoad? && a.load.result.Some? ==>
                           p(a.load.result.value.settings) && q(a.load.result.value.kafka)
    ensures Everywhere(t, p, q)
    decreases |actions|
  {
    if actions != [] {
      StepInv(s, actions[0]);
      StepEverywhere(s, actions[0], p, q);
      RunEverywhere(defaults, Apply(s, actions[0]), actions[1..], t, p, q);
    }
  }

  /** The answers that the API server gave to the reloads of a run. */
  function Answering(actions: seq<Action>): seq<Answers> {
    if actions == [] then []
    else
      (if actions[0].LoadAction? && actions[0].load.BeginLoad? then [actions[0].load.answers] else [])
      + Answering(actions[1..])
  }

  lemma {:induction false} AnsweringHas(actions: seq<Action>, a: Action)
    requires a in actions && a.LoadAction? && a.load.BeginLoad?
    ensures a.load.answers in Answering(actions)
  {
    if a != actions[0] {
      AnsweringHas(actions[1..], a);
    }
  }

  lemma {:induction false} RunAnswered(defaults: Settings, s: State, actions: seq<Action>, t: State, a: Action)
    requires Run(defaults, s, actions, t) && a in actions
    ensures Answered(defaults, a)
    decreases |actions|
  {
    if a != actions[0] {
      RunAnswered(defaults, Apply(s, actions[0]), actions[1..], t, a);
    }
  }

  /** In every run, the published settings, those of every runner, and every Kafka
      triple that was ever published come from answers that the API server gave to a
      reload of that run, ConfigMap and Secret from the same one. */
  lemma OnlyAnswersArePublished(defaults: Settings, first: Answers, s0: State, actions: seq<Action>, s: State)
    requires InitFrom(defaults, first, s0) && Run(defaults, s0, actions, s)
    ensures var given := [first] + Answering(actions);
            && (exists a :: a in given && SuppliesSettings(defaults, a, s.settings))
            && (forall k :: k in s.published ==> exists a :: a in given && SuppliesKafka(a, k))
            && (forall i :: 0 <= i < |s.runners| ==>
                  exists a :: a in given && SuppliesSettings(defaults, a, s.runners[i].settings))
  {
    var given := [first] + Answering(actions);
    var p := (x: Settings) => exists a :: a in given && SuppliesSettings(defaults, a, x);
    var q := (k: Kafka) => exists a :: a in given && SuppliesKafka(a, k);
    LoadMeaning(defaults, first);
    assert first in given;
    InitInv(defaults, s0);
    forall a | a in actions && a.LoadAction? && a.load.BeginLoad? && a.load.result.Some?
      ensures p(a.load.result.value.settings) && q(a.load.result.value.kafka)
    {
      AnsweringHas(actions, a);
      RunAnswered(defaults, s0, actions, s, a);
      LoadMeaning(defaults, a.load.answers);
      assert a.load.answers in given;
    }
    RunEverywhere(defaults, s0, actions, s, p, q);
  }
}
