/** The configuration provider as an object: the fields its locks guard, its
    subscribers' channels, and the methods that update them. The interleaving of
    these updates with other goroutines is the subject of module HotReload. */
module ConfigProvider {
  import opened Text
  import opened NotificationSettings
  import opened HotReload
  import Fingerprint

  /** What one subscriber and the Secret watcher can observe. */
  datatype Shared = Shared(settings: Settings, kafka: Kafka, changes: bool, reload: bool)

  function SharedOf(s: State): Shared
    requires s.published != []
  {
    Shared(s.settings, s.Kafka(), s.changes, s.reload)
  }

  class Provider {
    const defaults: Settings
    var config: Settings
    var kafkaConfig: KafkaConfig
    var kafkaSecret: string
    var kafkaFingerprint: string
    var subscribers: seq<bool>
    var reloadSignal: bool

    ghost function Observed(i: nat): Shared
      requires i < |subscribers|
      reads this
    {
      Shared(config, Kafka(kafkaConfig, kafkaSecret, kafkaFingerprint), subscribers[i], reloadSignal)
    }

    constructor (defaults: Settings)
      ensures this.defaults == defaults && subscribers == [] && !reloadSignal
    {
      this.defaults := defaults;
      config := Settings("", [], [], "");
      kafkaConfig := KafkaConfig(map[]);
      kafkaSecret, kafkaFingerprint := "", "";
      subscribers := [];
      reloadSignal := false;
    }

    /** A new subscriber's channel is empty; nobody else's changes. */
    method Subscribe() returns (channel: nat)
      modifies this`subscribers
      ensures channel == |old(subscribers)| && subscribers == old(subscribers) + [false]
    {
      channel := |subscribers|;
      subscribers := subscribers + [false];
    }

    /** Every channel holds a signal afterwards, whether it was empty or full. */
    method NotifySubscribers()
      modifies this`subscribers
      ensures |subscribers| == |old(subscribers)|
      ensures forall i :: 0 <= i < |subscribers| ==> subscribers[i]
    {
      for i := 0 to |subscribers|
        invariant |subscribers| == |old(subscribers)|
        invariant forall j :: 0 <= j < i ==> subscribers[j]
      {
        if !subscribers[i] {
          subscribers := subscribers[i := true];
        }
      }
    }

    method SignalReload()
      modifies this`reloadSignal
      ensures reloadSignal
    {
      if !reloadSignal {
        reloadSignal := true;
      }
    }

    /** One reload. If it fails, for whatever reason, every field and every
        signal stays as it was; otherwise everyone observes what was loaded. */
    method LoadConfig(answers: Answers) returns (ok: bool)
      modifies this
      ensures ok <==>
                && answers.configMap.Some?
                && var data := answers.configMap.value;
                   && Parse(data, defaults).Ok?
                   && (SECRET_KEY in data && data[SECRET_KEY] != "" ==> answers.secret.Some?)
      ensures !ok ==> unchanged(this)
      ensures ok ==>
                var data := answers.configMap.value;
                && Parse(data, defaults) == Ok(config)
                && (if SECRET_KEY in data && data[SECRET_KEY] != ""
                    then kafkaSecret == data[SECRET_KEY] && kafkaConfig.data == answers.secret.value
                    else kafkaSecret == "" && kafkaConfig.data == map[])
                && kafkaFingerprint == Fingerprint.Preimage(kafkaSecret, kafkaConfig.data)
      ensures ok <==> LoadResult(defaults, answers).Some?
      ensures ok ==>
                var loaded := LoadResult(defaults, answers).value;
                && |subscribers| == |old(subscribers)|
                && config == loaded.settings && Valid(config) && Coherent(loaded.kafka) && reloadSignal
                && forall i :: 0 <= i < |subscribers| ==>
                                 Observed(i) == Shared(loaded.settings, loaded.kafka, true, true)
    {
      if answers.configMap.None? {
        return false;
      }
      var data := answers.configMap.value;
      var parsed := Parse(data, defaults);
      ParseAcceptsExactlyValid(data, defaults);
      if parsed.Err? {
        return false;
      }
      var secret := SecretName(data);
      var secretData := map[];
      if secret != "" {
        if answers.secret.None? {
          return false;
        }
        secretData := answers.secret.value;
      }
      var fingerprint := Fingerprint.KafkaFingerprint(secret, secretData);

      config := parsed.value;

      kafkaConfig := KafkaConfig(secretData);
      kafkaSecret := secret;
      kafkaFingerprint := fingerprint;

      NotifySubscribers();
      SignalReload();
      return true;
    }
  }

  /** The five steps of a reload that nothing interrupts. */
  function Uninterrupted(s: State, who: Loader, answers: Answers, loaded: Loaded): State
    requires s.published != [] && LoadEnabled(s, who, BeginLoad(answers, Some(loaded)))
  {
    var s := ApplyLoad(s, who, BeginLoad(answers, Some(loaded)));
    var s := ApplyLoad(s, who, WriteSettings);
    var s := ApplyLoad(s, who, WriteKafka);
    var s := ApplyLoad(s, who, Notify);
    ApplyLoad(s, who, SignalReload)
  }

  /** To a subscriber, the steps of the protocol add up to what LoadConfig does,
      and no other goroutine's place changes. */
  lemma UninterruptedLoad(s: State, who: Loader, answers: Answers, loaded: Loaded)
    requires s.published != [] && s.subscribed && LoadEnabled(s, who, BeginLoad(answers, Some(loaded)))
    ensures SharedOf(Uninterrupted(s, who, answers, loaded)) == Shared(loaded.settings, loaded.kafka, true, true)
    ensures var t := Uninterrupted(s, who, answers, loaded);
            t == s.(settings := t.settings, published := t.published, changes := true, reload := true)
  {
    assert s.LoadOf(who).Idle?;
  }
}
