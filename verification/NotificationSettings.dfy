/** The notification transport settings: how a ConfigMap and the command-line
    defaults resolve to settings, what the default ConfigMap holds, and when two
    settings call for a restart of the notification runner. */
module NotificationSettings {
  import opened Text

  datatype Settings = Settings(
    mode: string,
    brokers: seq<string>,
    topics: seq<string>,
    groupId: string)

  datatype ParseError =
    | InvalidMode(mode: string)
    | BrokersRequired
    | TopicsRequired
    | GroupIdRequired

  type ConfigData = map<string, string>

  const MODE_KEY := "NOTIFICATIONS_MODE"
  const BROKERS_KEY := "KAFKA_BROKERS"
  const TOPICS_KEY := "KAFKA_NOTIFICATIONS_TOPICS"
  const GROUP_ID_KEY := "KAFKA_NOTIFICATIONS_GROUP_ID"
  const SECRET_KEY := "KAFKA_SECRET"

  const HTTP := "http"
  const KAFKA := "kafka"

  /** Settings the adapter may run with: in Kafka mode every part of the
      connection is present. */
  predicate Valid(s: Settings) {
    && (s.mode == HTTP || s.mode == KAFKA)
    && (s.mode == KAFKA ==> s.brokers != [] && s.topics != [] && s.groupId != "")
  }

  function GetOrDefault(data: ConfigData, key: string, default: string): string {
    if key in data && data[key] != "" then data[key] else default
  }

  /** The list setting under `key`: a blank or missing value means the default. */
  function ListOrDefault(data: ConfigData, key: string, default: seq<string>): seq<string> {
    if key in data && TrimSpace(data[key]) != "" then Entries(data[key]) else default
  }

  function Resolve(data: ConfigData, defaults: Settings): Settings {
    var mode := GetOrDefault(data, MODE_KEY, defaults.mode);
    Settings(if mode == "" then HTTP else mode,
             ListOrDefault(data, BROKERS_KEY, defaults.brokers),
             ListOrDefault(data, TOPICS_KEY, defaults.topics),
             GetOrDefault(data, GROUP_ID_KEY, defaults.groupId))
  }

  function Parse(data: ConfigData, defaults: Settings): (r: Result<Settings, ParseError>) {
    var s := Resolve(data, defaults);
    if s.mode != HTTP && s.mode != KAFKA then Err(InvalidMode(s.mode))
    else if s.mode == KAFKA && s.brokers == [] then Err(BrokersRequired)
    else if s.mode == KAFKA && s.topics == [] then Err(TopicsRequired)
    else if s.mode == KAFKA && s.groupId == "" then Err(GroupIdRequired)
    else Ok(s)
  }

  /** Parsing accepts exactly the ConfigMaps that resolve to valid settings, and
      then returns them unchanged. */
  lemma ParseAcceptsExactlyValid(data: ConfigData, defaults: Settings)
    ensures Parse(data, defaults).Ok? <==> Valid(Resolve(data, defaults))
    ensures Parse(data, defaults).Ok? ==> Parse(data, defaults).value == Resolve(data, defaults)
  {
  }

  /** A ConfigMap that asks for this list: it lists the entries, separated by commas,
      or says nothing but blanks and the default is the list. */
  predicate AsksForList(data: ConfigData, key: string, xs: seq<string>, default: seq<string>) {
    if key in data && !Blank(data[key]) then data[key] == Join(xs, ',') && Clean(xs)
    else xs == default
  }

  predicate AsksFor(data: ConfigData, key: string, x: string, default: string) {
    if key in data && data[key] != "" then x == data[key] else x == default
  }

  lemma ListAskedFor(data: ConfigData, key: string, xs: seq<string>, default: seq<string>)
    requires AsksForList(data, key, xs, default)
    ensures ListOrDefault(data, key, default) == xs
  {
    if key in data {
      BlankTrimsAway(data[key]);
      JoinRoundTrip(xs);
    }
  }

  /** Every setting can be asked for in the ConfigMap, each under its own key, and the
      defaults fill in for those that are not. */
  lemma AskedForIsResolved(data: ConfigData, defaults: Settings, s: Settings)
    requires AsksFor(data, MODE_KEY, s.mode, if defaults.mode == "" then HTTP else defaults.mode)
    requires AsksForList(data, BROKERS_KEY, s.brokers, defaults.brokers)
    requires AsksForList(data, TOPICS_KEY, s.topics, defaults.topics)
    requires AsksFor(data, GROUP_ID_KEY, s.groupId, defaults.groupId)
    ensures Resolve(data, defaults) == s
    ensures Valid(s) ==> Parse(data, defaults) == Ok(s)
  {
    ListAskedFor(data, BROKERS_KEY, s.brokers, defaults.brokers);
    ListAskedFor(data, TOPICS_KEY, s.topics, defaults.topics);
  }

  /** A ConfigMap that is rejected has a mode that does not exist, or in Kafka mode
      lacks a part, and the first one that is missing is reported. */
  lemma RejectedFor(data: ConfigData, defaults: Settings)
    ensures var s := Resolve(data, defaults);
            var kafka := s.mode == "kafka";
            && (Parse(data, defaults) == Err(InvalidMode(s.mode)) <==> s.mode != "http" && s.mode != "kafka")
            && (Parse(data, defaults) == Err(BrokersRequired) <==> kafka && s.brokers == [])
            && (Parse(data, defaults) == Err(TopicsRequired) <==> kafka && s.brokers != [] && s.topics == [])
            && (Parse(data, defaults) == Err(GroupIdRequired) <==>
                  kafka && s.brokers != [] && s.topics != [] && s.groupId == "")
  {
  }

  /** The defaults that `main` builds from the command-line flags. */
  method DefaultsFromFlags(mode: string, brokers: string, topics: string, groupId: string)
    returns (defaults: Settings)
    ensures defaults == Settings(mode, Entries(brokers), Entries(topics), groupId)
  {
    var brokerList := SplitAndTrim(brokers);
    var topicList := SplitAndTrim(topics);
    defaults := Settings(mode, brokerList, topicList, groupId);
  }

  const ADAPTER_DEFAULTS: ConfigData := map[
    "NOOBAA_ADAPTER_ID" := "mcg-adapter",
    "NOOBAA_ADAPTER_TOPIC_ARN" := "mcg-adapter-connection/connect.json",
    "NOOBAA_ADAPTER_STORAGECLASS_PATTERN" := ".*noobaa\\.io$",
    "RADOSGW_ADAPTER_ID" := "rgw-adapter",
    "RADOSGW_ADAPTER_TOPIC_ARN" := "arn:aws:sns:ocs-storagecluster-cephobjectstore::rgw-adapter-notifications",
    "RADOSGW_ADAPTER_STORAGECLASS_PATTERN" := ".*ceph-rgw$"]

  function Put(data: ConfigData, present: bool, key: string, value: string): ConfigData {
    if present then data[key := value] else data
  }

  function DefaultConfigMapData(d: Settings): ConfigData {
    var data := Put(ADAPTER_DEFAULTS, true, MODE_KEY, if d.mode == "" then HTTP else d.mode);
    var data := Put(data, d.brokers != [], BROKERS_KEY, Join(d.brokers, ','));
    var data := Put(data, d.topics != [], TOPICS_KEY, Join(d.topics, ','));
    Put(data, d.groupId != "", GROUP_ID_KEY, d.groupId)
  }

  lemma DefaultDataLookups(d: Settings)
    ensures var data := DefaultConfigMapData(d);
            && MODE_KEY in data && data[MODE_KEY] == (if d.mode == "" then HTTP else d.mode)
            && (BROKERS_KEY in data <==> d.brokers != [])
            && (BROKERS_KEY in data ==> data[BROKERS_KEY] == Join(d.brokers, ','))
            && (TOPICS_KEY in data <==> d.topics != [])
            && (TOPICS_KEY in data ==> data[TOPICS_KEY] == Join(d.topics, ','))
            && (GROUP_ID_KEY in data <==> d.groupId != "")
            && (GROUP_ID_KEY in data ==> data[GROUP_ID_KEY] == d.groupId)
            && SECRET_KEY !in data
  {
    KeysDistinct();
  }

  lemma KeysDistinct()
    ensures MODE_KEY != BROKERS_KEY && MODE_KEY != TOPICS_KEY && MODE_KEY != GROUP_ID_KEY
    ensures BROKERS_KEY != TOPICS_KEY && BROKERS_KEY != GROUP_ID_KEY && TOPICS_KEY != GROUP_ID_KEY
    ensures SECRET_KEY !in {MODE_KEY, BROKERS_KEY, TOPICS_KEY, GROUP_ID_KEY}
    ensures {MODE_KEY, BROKERS_KEY, TOPICS_KEY, GROUP_ID_KEY, SECRET_KEY} !! ADAPTER_DEFAULTS.Keys
  {
    assert MODE_KEY[0] == 'N' && MODE_KEY[2] == 'T';
    assert |MODE_KEY| == 18 && |BROKERS_KEY| == 13 && |TOPICS_KEY| == 26 && |GROUP_ID_KEY| == 28 && |SECRET_KEY| == 12;
  }

  /** A default list that the default ConfigMap hands back unchanged: one whose
      entries the comma-separated form can carry, or one that it writes as a
      blank value, which counts as absent. */
  predicate Kept(xs: seq<string>) {
    Clean(xs) || TrimSpace(Join(xs, ',')) == ""
  }

  lemma ListReadBack(data: ConfigData, key: string, xs: seq<string>)
    requires key in data <==> xs != []
    requires key in data ==> data[key] == Join(xs, ',')
    ensures ListOrDefault(data, key, xs) == xs <==> Kept(xs)
  {
    JoinRoundTrip(xs);
  }

  /** For any defaults at all: the ConfigMap the adapter creates resolves to what
      an empty ConfigMap resolves to exactly when both default lists are kept. */
  lemma DefaultConfigMapResolution(d: Settings)
    ensures Resolve(DefaultConfigMapData(d), d) == Resolve(map[], d) <==> Kept(d.brokers) && Kept(d.topics)
  {
    var data := DefaultConfigMapData(d);
    DefaultDataLookups(d);
    ListReadBack(data, BROKERS_KEY, d.brokers);
    ListReadBack(data, TOPICS_KEY, d.topics);
  }

  /** Creating the default ConfigMap changes nothing: whatever the flags, the
      adapter resolves the ConfigMap it wrote itself to the same settings, or to
      the same error, as an empty ConfigMap. */
  lemma DefaultConfigMapChangesNothing(mode: string, brokers: string, topics: string, groupId: string)
    ensures var d := Settings(mode, Entries(brokers), Entries(topics), groupId);
            Parse(DefaultConfigMapData(d), d) == Parse(map[], d)
  {
    EntriesStable(brokers);
    EntriesStable(topics);
    DefaultConfigMapResolution(Settings(mode, Entries(brokers), Entries(topics), groupId));
  }

  // --- when to restart the runner ---

  method StringSlicesEqual(a: seq<string>, b: seq<string>) returns (equal: bool)
    ensures equal <==> a == b
  {
    if |a| != |b| {
      return false;
    }
    for i := 0 to |a|
      invariant a[..i] == b[..i]
    {
      if a[i] != b[i] {
        return false;
      }
    }
    return true;
  }

  method NotificationSettingsEqual(a: Settings, b: Settings) returns (equal: bool)
    ensures equal <==> a == b
  {
    equal := a.mode == b.mode && a.groupId == b.groupId;
    if equal {
      equal := StringSlicesEqual(a.brokers, b.brokers);
    }
    if equal {
      equal := StringSlicesEqual(a.topics, b.topics);
    }
  }

  /** Whether a runner with these settings opens any Kafka connection. */
  predicate UsesKafka(s: Settings) {
    s.mode == KAFKA || s.brokers != []
  }

  datatype Snapshot = Snapshot(settings: Settings, fingerprint: string)

  predicate RestartNeeded(was: Snapshot, now: Snapshot) {
    was.settings != now.settings || (UsesKafka(now.settings) && was.fingerprint != now.fingerprint)
  }

  method NeedsRestart(was: Snapshot, now: Snapshot) returns (restart: bool)
    ensures restart <==> RestartNeeded(was, now)
  {
    var equal := NotificationSettingsEqual(was.settings, now.settings);
    if !equal {
      return true;
    }
    if UsesKafka(now.settings) && was.fingerprint != now.fingerprint {
      return true;
    }
    return false;
  }
}
