/** When the client configuration a runner has read is the published one.
    `run` reads it after the supervisor has taken its fingerprint, so a
    fingerprint that goes away and comes back can hide a change. */
module CredentialFreshness {
  import opened Text
  import opened NotificationSettings
  import opened HotReload
  import opened HotReloadTheorems
  import Fingerprint

  /** Nothing is on its way, and yet the runner holds other credentials than the
      published ones. */
  predicate Stale(s: State) {
    && Quiet(s) && s.published != []
    && exists n :: n in s.Last().got && n < |s.published| && s.published[n].config != s.Kafka().config
  }

  /** The current fingerprint was published before, and since then a different
      client configuration was. */
  predicate Returned(h: seq<Kafka>) {
    && h != []
    && exists i, j :: 0 <= i <= j < |h| && h[i].fingerprint == h[|h| - 1].fingerprint
                      && h[j].config != h[|h| - 1].config
  }

  lemma StaleMeansReturned(defaults: Settings, s: State)
    requires Reachable(defaults, s) && Stale(s)
    ensures Returned(s.published)
  {
    QuietReads(defaults, s);
    StaleHistory(s);
  }

  lemma StaleHistory(s: State)
    requires Stale(s) && s.sup.at < |s.published|
    requires forall n :: n in s.Last().got ==> s.sup.at <= n < |s.published|
    requires s.Last().got != [] ==> s.published[s.sup.at].fingerprint == s.Kafka().fingerprint
    ensures Returned(s.published)
  {
    var n :| n in s.Last().got && n < |s.published| && s.published[n].config != s.Kafka().config;
    assert s.published[s.sup.at].fingerprint == s.published[|s.published| - 1].fingerprint;
  }

  // --- every such history does leave a stale runner behind in some run ---

  /** What a reload can publish. */
  ghost predicate Publishable(k: Kafka) {
    Coherent(k) && (k.secret == "" ==> k.config.data == map[])
  }

  /** HTTP mode with one broker, for `kafka:` sinks. */
  function Plain(defaults: Settings): Settings {
    Settings(HTTP, ["b"], defaults.topics, defaults.groupId)
  }

  function AnswersFor(k: Kafka): Answers {
    Answers(Some(map[MODE_KEY := HTTP, BROKERS_KEY := "b", SECRET_KEY := k.secret]), Some(k.config.data))
  }

  lemma AnswersLoad(defaults: Settings, k: Kafka)
    requires Publishable(k)
    ensures LoadResult(defaults, AnswersFor(k)) == Some(Loaded(Plain(defaults), k))
  {
    KeysDistinct();
    PlainResolves(defaults, k.secret);
  }

  lemma PlainResolves(defaults: Settings, secret: string)
    ensures Resolve(map[MODE_KEY := HTTP, BROKERS_KEY := "b", SECRET_KEY := secret], defaults) == Plain(defaults)
  {
    KeysDistinct();
    TrimSpaceOfTrimmed("b");
    JoinRoundTrip(["b"]);
    assert Join(["b"], ',') == "b";
  }

  lemma ReachableStep(defaults: Settings, s: State, a: Action)
    requires Reachable(defaults, s) && s.published != [] && Enabled(s, a) && Answered(defaults, a)
    ensures Reachable(defaults, Apply(s, a))
  {
    var s0: State, actions: seq<Action> :| Init(defaults, s0) && Run(defaults, s0, actions, s);
    assert [a][1..] == [];
    assert Run(defaults, Apply(s, a), [], Apply(s, a));
    assert Run(defaults, s, [a], Apply(s, a));
    RunAppend(defaults, s0, actions, s, [a], Apply(s, a));
  }

  /** `reach` holds of whatever a step leads to from where it holds. */
  ghost predicate Closed(defaults: Settings, reach: State -> bool) {
    forall s: State, a: Action {:trigger Apply(s, a)} ::
      reach(s) && s.published != [] && Enabled(s, a) && Answered(defaults, a) ==> reach(Apply(s, a))
  }

  lemma LoadReaches(defaults: Settings, reach: State -> bool, s: State, step: LoadStep)
    requires Closed(defaults, reach) && reach(s) && s.published != [] && LoadEnabled(s, OnConfigMap, step)
    requires Answered(defaults, LoadAction(OnConfigMap, step))
    ensures reach(ApplyLoad(s, OnConfigMap, step))
  {
    var t := Apply(s, LoadAction(OnConfigMap, step));
  }

  lemma SupReaches(defaults: Settings, reach: State -> bool, s: State, step: SupStep)
    requires Closed(defaults, reach) && reach(s) && s.published != [] && SupEnabled(s, step)
    ensures reach(ApplySup(s, step))
  {
    var t := Apply(s, SupAction(step));
  }

  lemma RunnerReaches(defaults: Settings, reach: State -> bool, s: State, i: nat, step: RunnerStep)
    requires Closed(defaults, reach) && reach(s) && s.published != [] && RunnerEnabled(s, i, step)
    ensures reach(ApplyRunner(s, i, step))
  {
    var t := Apply(s, RunnerAction(i, step));
  }

  lemma PublishOne(defaults: Settings, reach: State -> bool, s: State, k: Kafka)
    requires Closed(defaults, reach) && reach(s)
    requires s.published != [] && s.onConfigMap.Idle? && s.settings == Plain(defaults)
    requires Publishable(k)
    ensures reach(s.(published := s.published + [k], changes := s.changes || s.subscribed, reload := true))
  {
    AnswersLoad(defaults, k);
    var load := BeginLoad(AnswersFor(k), Some(Loaded(Plain(defaults), k)));
    LoadReaches(defaults, reach, s, load);
    var t := ApplyLoad(s, OnConfigMap, load);
    LoadReaches(defaults, reach, t, WriteSettings);
    t := ApplyLoad(t, OnConfigMap, WriteSettings);
    LoadReaches(defaults, reach, t, WriteKafka);
    t := ApplyLoad(t, OnConfigMap, WriteKafka);
    LoadReaches(defaults, reach, t, Notify);
    t := ApplyLoad(t, OnConfigMap, Notify);
    LoadReaches(defaults, reach, t, SignalReload);
    t := ApplyLoad(t, OnConfigMap, SignalReload);
  }

  /** `s` after the reloads up to publication `n` of `h`. */
  function Published(s: State, h: seq<Kafka>, n: nat): State
    requires |s.published| <= n <= |h|
  {
    if |s.published| == n then s
    else s.(published := h[..n], changes := s.changes || s.subscribed, reload := true)
  }

  lemma {:induction false} PublishUpTo(defaults: Settings, reach: State -> bool, s: State, h: seq<Kafka>, n: nat)
    requires Closed(defaults, reach) && reach(s)
    requires s.published != [] && s.onConfigMap.Idle? && s.settings == Plain(defaults)
    requires |s.published| <= n <= |h| && s.published == h[..|s.published|]
    requires forall k :: k in h ==> Publishable(k)
    ensures reach(Published(s, h, n))
    decreases n
  {
    if |s.published| < n {
      PublishUpTo(defaults, reach, s, h, n - 1);
      assert Publishable(h[n - 1]);
      PublishOne(defaults, reach, Published(s, h, n - 1), h[n - 1]);
      PublishedStep(s, h, n);
    }
  }

  lemma PublishedStep(s: State, h: seq<Kafka>, n: nat)
    requires |s.published| < n <= |h| && s.published == h[..|s.published|]
    ensures var t := Published(s, h, n - 1);
            Published(s, h, n) ==
            t.(published := t.published + [h[n - 1]], changes := t.changes || t.subscribed, reload := true)
  {
    assert h[..n - 1] + [h[n - 1]] == h[..n];
  }

  lemma StartSupervising(defaults: Settings, reach: State -> bool, s: State) returns (t: State)
    requires Closed(defaults, reach) && reach(s)
    requires s.published != [] && s.sup.Subscribing? && !s.ctxDone && s.runners == []
    ensures reach(t)
    ensures t == s.(subscribed := true,
                    sup := Supervising(s.Now(), |s.published| - 1),
                    runners := [Runner(s.settings, Starting, false, [])])
  {
    SupReaches(defaults, reach, s, Subscribe);
    t := ApplySup(s, Subscribe);
    SupReaches(defaults, reach, t, PassLoopHead);
    t := ApplySup(t, PassLoopHead);
    SupReaches(defaults, reach, t, ReadSettings);
    t := ApplySup(t, ReadSettings);
    SupReaches(defaults, reach, t, ReadFingerprint);
    t := ApplySup(t, ReadFingerprint);
  }

  lemma StartServing(defaults: Settings, reach: State -> bool, s: State) returns (t: State)
    requires Closed(defaults, reach) && reach(s)
    requires s.published != [] && s.runners == [Runner(Plain(defaults), Starting, false, [])]
    ensures reach(t)
    ensures t == s.(runners := [Runner(Plain(defaults), Serving, false, [|s.published| - 1])])
  {
    assert |HTTP| != |KAFKA|;
    var n: nat := |s.published| - 1;
    var none: seq<nat> := [];
    assert none + [n] == [n];
    RunnerReaches(defaults, reach, s, 0, MakeProducer(true));
    t := ApplyRunner(s, 0, MakeProducer(true));
    assert t.runners == [Runner(Plain(defaults), ProducerDone, false, [|s.published| - 1])];
    RunnerReaches(defaults, reach, t, 0, Serve(true));
    t := ApplyRunner(t, 0, Serve(true));
    assert t.runners == [Runner(Plain(defaults), Serving, false, [|s.published| - 1])];
  }

  /** A change that the comparison does not see is dropped. */
  lemma IgnoreChange(defaults: Settings, reach: State -> bool, s: State)
    requires Closed(defaults, reach) && reach(s)
    requires s.published != [] && s.sup.Supervising? && !RestartNeeded(s.sup.snap, s.Now())
    ensures reach(s.(changes := false))
  {
    if s.changes {
      SupReaches(defaults, reach, s, TakeChange);
      var t := ApplySup(s, TakeChange);
      SupReaches(defaults, reach, t, ReadSettings);
      t := ApplySup(t, ReadSettings);
      SupReaches(defaults, reach, t, ReadFingerprint);
      t := ApplySup(t, ReadFingerprint);
    }
  }

  /** The state right after NewProvider has loaded `k`. */
  function AfterNewProvider(defaults: Settings, k: Kafka): State {
    State(Plain(defaults), [k], false, false, true, Idle, Idle, ReadName, Subscribing, [], false)
  }

  lemma InitialLoad(defaults: Settings, k: Kafka)
    requires Publishable(k)
    ensures Reachable(defaults, AfterNewProvider(defaults, k))
  {
    AnswersLoad(defaults, k);
    var s := AfterNewProvider(defaults, k);
    assert InitFrom(defaults, AnswersFor(k), s);
    assert Run(defaults, s, [], s);
  }

  lemma ServeBetween(defaults: Settings, reach: State -> bool, h: seq<Kafka>, i: nat, j: nat) returns (s: State)
    requires Closed(defaults, reach)
    requires forall k :: k in h ==> Publishable(k)
    requires i <= j < |h| && reach(AfterNewProvider(defaults, h[0]))
    ensures reach(s) && s.published == h[..j + 1] && s.settings == Plain(defaults)
    ensures s.onConfigMap.Idle? && s.onSecret.Idle? && !s.ctxDone
    ensures s.sup == Supervising(Snapshot(Plain(defaults), h[i].fingerprint), i)
    ensures s.runners == [Runner(Plain(defaults), Serving, false, [j])]
  {
    s := AfterNewProvider(defaults, h[0]);
    assert h[..1] == [h[0]];
    PublishUpTo(defaults, reach, s, h, i + 1);
    s := StartSupervising(defaults, reach, Published(s, h, i + 1));
    PublishUpTo(defaults, reach, s, h, j + 1);
    s := StartServing(defaults, reach, Published(s, h, j + 1));
  }

  /** The run behind a stale runner: the supervisor takes the fingerprint of
      publication i, the runner reads publication j, and the last publication
      restores the fingerprint before the supervisor compares. */
  lemma StaleRun(defaults: Settings, reach: State -> bool, h: seq<Kafka>, i: nat, j: nat) returns (s: State)
    requires Closed(defaults, reach)
    requires forall k :: k in h ==> Publishable(k)
    requires i <= j < |h| && h[i].fingerprint == h[|h| - 1].fingerprint && h[j].config != h[|h| - 1].config
    requires reach(AfterNewProvider(defaults, h[0]))
    ensures reach(s) && s.published == h && Stale(s)
  {
    s := ServeBetween(defaults, reach, h, i, j);
    PublishUpTo(defaults, reach, s, h, |h|);
    s := Published(s, h, |h|);
    assert h[..|h|] == h;
    IgnoreChange(defaults, reach, s);
    s := s.(changes := false);
    assert j in s.Last().got;
  }

  lemma ReturnedLeavesStale(defaults: Settings, h: seq<Kafka>) returns (s: State)
    requires forall k :: k in h ==> Publishable(k)
    requires Returned(h)
    ensures Reachable(defaults, s) && s.published == h && Stale(s)
  {
    var reach := (x: State) => Reachable(defaults, x);
    assert Closed(defaults, reach) by {
      forall x: State, a: Action | reach(x) && x.published != [] && Enabled(x, a) && Answered(defaults, a)
        ensures reach(Apply(x, a))
      {
        ReachableStep(defaults, x, a);
      }
    }
    assert h[0] in h;
    InitialLoad(defaults, h[0]);
    var i, j :| 0 <= i <= j < |h| && h[i].fingerprint == h[|h| - 1].fingerprint && h[j].config != h[|h| - 1].config;
    s := StaleRun(defaults, reach, h, i, j);
  }

  /** Exactly the histories in which a fingerprint returns after a different
      configuration can leave a runner with stale credentials at rest. */
  lemma StaleExactlyWhenReturned(defaults: Settings, h: seq<Kafka>)
    requires forall k :: k in h ==> Publishable(k)
    ensures (exists s: State :: Reachable(defaults, s) && s.published == h && Stale(s)) <==> Returned(h)
  {
    if Returned(h) {
      var s := ReturnedLeavesStale(defaults, h);
    }
    if s: State :| Reachable(defaults, s) && s.published == h && Stale(s) {
      StaleMeansReturned(defaults, s);
    }
  }

  // --- when credentials never come back ---

  /** No fingerprint is published again after it was replaced. */
  predicate NeverRepublished(h: seq<Kafka>) {
    forall i, j, k :: 0 <= i <= j <= k < |h| && h[i].fingerprint == h[k].fingerprint ==>
                        h[j].fingerprint == h[k].fingerprint
  }

  lemma NeverRepublishedNeverReturned(h: seq<Kafka>)
    requires NeverRepublished(h)
    requires forall k :: k in h ==> Coherent(k) && Fingerprint.NulFree(k.secret, k.config.data)
    ensures !Returned(h)
  {
    if Returned(h) {
      var i, j :| 0 <= i <= j < |h| && h[i].fingerprint == h[|h| - 1].fingerprint && h[j].config != h[|h| - 1].config;
      SameFingerprint(h[j], h[|h| - 1]);
    }
  }

  lemma SameFingerprint(a: Kafka, b: Kafka)
    requires Coherent(a) && Fingerprint.NulFree(a.secret, a.config.data)
    requires Coherent(b) && Fingerprint.NulFree(b.secret, b.config.data)
    ensures a.fingerprint == b.fingerprint <==> a == b
  {
    Fingerprint.FingerprintIdentifies(a.secret, a.config.data, b.secret, b.config.data);
  }

  /** If no replaced fingerprint is ever published again and the Secrets hold no
      zero bytes, then at rest the runner works with exactly the published
      settings and every client configuration it has read is the published one. */
  lemma CredentialsAreFresh(defaults: Settings, s: State)
    requires Reachable(defaults, s) && Quiet(s)
    requires NeverRepublished(s.published)
    requires forall k :: k in s.published ==> Fingerprint.NulFree(k.secret, k.config.data)
    ensures s.published != [] && s.Last().settings == s.settings
    ensures forall n :: n in s.Last().got ==> n < |s.published| && s.published[n].config == s.Kafka().config
  {
    QuietReads(defaults, s);
    NeverRepublishedNeverReturned(s.published);
    if Stale(s) {
      StaleHistory(s);
    }
  }
}
