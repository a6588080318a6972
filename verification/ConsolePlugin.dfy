/** The six resources of the console plugin: created in one order, deleted in the
    reverse order, with every call to the API server able to fail. */
module ConsolePlugin {
  import opened Text

  const NAME := "console-functions-plugin"

  datatype Kind = ServiceAccount | Role | RoleBinding | Service | Deployment | ConsolePlugin

  function Rank(kind: Kind): nat {
    match kind
    case ServiceAccount => 0
    case Role => 1
    case RoleBinding => 2
    case Service => 3
    case Deployment => 4
    case ConsolePlugin => 5
  }

  datatype OwnerRef = OwnerRef(uid: string, kind: string, name: string)

  /** The labels and the specification that the operator gives a resource. Only the
      arguments of the Deployment depend on the cluster. */
  datatype Managed = Managed(kind: Kind, arguments: seq<string>)

  /** `roleRef` matters for the RoleBinding only, where it cannot be changed. `rest`
      is what the operator leaves alone. */
  datatype Resource = Resource(managed: Managed, roleRef: string, owners: seq<OwnerRef>, rest: string)

  type Store = map<Kind, Resource>

  datatype Settings = Settings(apiServerURL: string, clusterID: string, ghApiURL: string)

  function BuildArguments(s: Settings): seq<string> {
    ["--https-port=9443", "--external-api-server-url=" + s.apiServerURL, "--cluster-id=" + s.clusterID]
    + if s.ghApiURL != "" then ["--gh-api-url=" + s.ghApiURL] else []
  }

  function Build(kind: Kind, arguments: seq<string>): Managed {
    Managed(kind, if kind == Deployment then arguments else [])
  }

  // --- owner references ---

  /** Replace the first reference with that UID, or append. */
  function WithOwner(owners: seq<OwnerRef>, ref: OwnerRef): seq<OwnerRef> {
    if owners == [] then [ref]
    else if owners[0].uid == ref.uid then [ref] + owners[1..]
    else [owners[0]] + WithOwner(owners[1..], ref)
  }

  function WithOptionalOwner(owners: seq<OwnerRef>, ref: Option<OwnerRef>): seq<OwnerRef> {
    if ref.Some? then WithOwner(owners, ref.value) else owners
  }

  lemma {:induction false} WithOwnerAt(owners: seq<OwnerRef>, ref: OwnerRef, i: nat)
    requires i <= |owners| && (i < |owners| ==> owners[i].uid == ref.uid)
    requires forall j :: 0 <= j < i ==> owners[j].uid != ref.uid
    ensures WithOwner(owners, ref) == if i < |owners| then owners[i := ref] else owners + [ref]
  {
    if i > 0 {
      WithOwnerAt(owners[1..], ref, i - 1);
      assert owners == [owners[0]] + owners[1..];
    }
  }

  method EnsureOwnerRef(owners: seq<OwnerRef>, ref: Option<OwnerRef>) returns (r: seq<OwnerRef>)
    ensures r == WithOptionalOwner(owners, ref)
  {
    if ref.None? {
      return owners;
    }
    for i := 0 to |owners|
      invariant forall j :: 0 <= j < i ==> owners[j].uid != ref.value.uid
    {
      if owners[i].uid == ref.value.uid {
        WithOwnerAt(owners, ref.value, i);
        return owners[i := ref.value];
      }
    }
    WithOwnerAt(owners, ref.value, |owners|);
    r := owners + [ref.value];
  }

  /** The reference is there, references with another UID stay, and doing it again
      changes nothing. */
  lemma {:induction false} OwnerRefEnsured(owners: seq<OwnerRef>, ref: OwnerRef)
    ensures var r := WithOwner(owners, ref);
            && ref in r
            && (forall o :: o in owners && o.uid != ref.uid ==> o in r)
            && (forall o :: o in r ==> o == ref || o in owners)
            && WithOwner(r, ref) == r
  {
    if owners != [] && owners[0].uid != ref.uid {
      OwnerRefEnsured(owners[1..], ref);
    }
  }

  // --- what the operator wants a resource to be ---

  function Created(managed: Managed, owner: Option<OwnerRef>): Resource {
    Resource(managed, NAME, WithOptionalOwner([], owner), "")
  }

  function Adopted(existing: Resource, managed: Managed, owner: Option<OwnerRef>): Resource {
    existing.(managed := managed, owners := WithOptionalOwner(existing.owners, owner))
  }

  predicate MustReplace(kind: Kind, existing: Resource) {
    kind == RoleBinding && existing.roleRef != NAME
  }

  /** What a successful ensure makes of a resource. */
  function Ensured(store: Store, kind: Kind, managed: Managed, owner: Option<OwnerRef>): Resource {
    if kind in store && !MustReplace(kind, store[kind]) then Adopted(store[kind], managed, owner)
    else Created(managed, owner)
  }

  predicate AsWanted(store: Store, kind: Kind, managed: Managed, owner: Option<OwnerRef>) {
    kind in store && Ensured(store, kind, managed, owner) == store[kind]
  }

  /** Ensuring a resource that was ensured changes nothing. */
  lemma EnsuredIsStable(before: Store, store: Store, kind: Kind, managed: Managed, owner: Option<OwnerRef>)
    requires kind in store && store[kind] == Ensured(before, kind, managed, owner)
    ensures AsWanted(store, kind, managed, owner)
  {
    if owner.Some? {
      OwnerRefEnsured([], owner.value);
      if kind in before {
        OwnerRefEnsured(before[kind].owners, owner.value);
      }
    }
  }

  // --- the order ---

  /** No resource without the ones before it. */
  predicate Prefix(store: Store) {
    forall k, j :: k in store && Rank(j) < Rank(k) ==> j in store
  }

  /** The order is that of their creation. */
  lemma PrefixMeaning(store: Store)
    ensures Prefix(store) <==>
              && (Role in store ==> ServiceAccount in store)
              && (RoleBinding in store ==> Role in store)
              && (Service in store ==> RoleBinding in store)
              && (Deployment in store ==> Service in store)
              && (ConsolePlugin in store ==> Deployment in store)
  {
    assert Rank(ServiceAccount) < Rank(Role) < Rank(RoleBinding);
    assert Rank(RoleBinding) < Rank(Service) < Rank(Deployment) < Rank(ConsolePlugin);
  }

  predicate OwnRole(store: Store) {
    RoleBinding in store ==> store[RoleBinding].roleRef == NAME
  }

  predicate NothingFrom(store: Store, n: nat) {
    forall k :: k in store ==> Rank(k) < n
  }

  /** What the operator keeps true of the store if nobody else writes it. */
  predicate Good(store: Store) {
    Prefix(store) && OwnRole(store)
  }

  lemma CreateKeepsGood(store: Store, kind: Kind, r: Resource)
    requires Good(store) && (forall j :: Rank(j) < Rank(kind) ==> j in store)
    requires r.roleRef == NAME || (kind in store && r.roleRef == store[kind].roleRef)
    ensures Good(store[kind := r])
  {
  }

  lemma DeleteKeepsGood(store: Store, kind: Kind)
    requires Good(store) && NothingFrom(store, Rank(kind) + 1)
    ensures Good(store - {kind})
  {
  }

  /** Replacing a RoleBinding breaks the order for a moment, exactly if there is a
      Service already. */
  lemma ReplacingBreaksOrder(store: Store)
    requires Prefix(store) && RoleBinding in store
    ensures Prefix(store - {RoleBinding}) <==> Service !in store
  {
    var gap := store - {RoleBinding};
    if Service in store {
      assert Service in gap && RoleBinding !in gap && Rank(RoleBinding) < Rank(Service);
    } else {
      forall k | k in gap
        ensures Rank(k) < Rank(RoleBinding)
      {
        assert k in store && Rank(k) != Rank(RoleBinding);
      }
    }
  }

  // --- the API server ---

  datatype GetResult = Got(resource: Resource) | NotFound | GetFailed

  datatype WriteResult = Done | Missing | Rejected

  class Cluster {
    /** Reads are up to date, and no call fails. */
    const calm: bool
    var store: Store
    /** The store after each call that may have written. */
    var trace: seq<Store>

    constructor (calm: bool)
      ensures Valid() && store == map[] && trace == [map[]] && this.calm == calm
    {
      this.calm := calm;
      store := map[];
      trace := [map[]];
    }

    ghost predicate Valid()
      reads this
    {
      trace != [] && trace[|trace| - 1] == store
    }

    ghost predicate AllGood()
      reads this
    {
      forall i :: 0 <= i < |trace| ==> Good(trace[i])
    }

    ghost predicate OtherRole()
      reads this
    {
      forall i :: 0 <= i < |trace| && RoleBinding in trace[i] ==> trace[i][RoleBinding].roleRef != NAME
    }

    /** A read may fail, and may return what was stored at any earlier time. */
    method Get(kind: Kind) returns (r: GetResult)
      ensures r.Got? ==> exists i :: 0 <= i < |trace| && kind in trace[i] && trace[i][kind] == r.resource
      ensures calm && Valid() ==> r == if kind in store then Got(store[kind]) else NotFound
    {
      var i: int := *;
      if calm && trace != [] {
        i := |trace| - 1;
      }
      if 0 <= i < |trace| {
        r := if kind in trace[i] then Got(trace[i][kind]) else NotFound;
      } else {
        r := GetFailed;
      }
    }

    /** A create may fail, and may take place although a failure is reported. */
    method Create(kind: Kind, resource: Resource) returns (ok: bool)
      modifies this
      ensures store == old(store) || (kind !in old(store) && store == old(store)[kind := resource])
      ensures ok ==> kind !in old(store) && store == old(store)[kind := resource]
      ensures trace == old(trace) + [store]
      ensures calm && kind !in old(store) ==> ok
    {
      ok := *;
      ok := ok || calm;
      var performed: bool := *;
      if kind in store {
        ok := false;
      } else if ok || performed {
        store := store[kind := resource];
      }
      trace := trace + [store];
    }

    /** An update needs the current version of the resource. */
    method Update(kind: Kind, read: Resource, resource: Resource) returns (ok: bool)
      modifies this
      ensures store == old(store)
              || (kind in old(store) && old(store)[kind] == read && store == old(store)[kind := resource])
      ensures ok ==> kind in old(store) && old(store)[kind] == read && store == old(store)[kind := resource]
      ensures trace == old(trace) + [store]
      ensures calm && kind in old(store) && old(store)[kind] == read ==> ok
    {
      ok := *;
      ok := ok || calm;
      var performed: bool := *;
      if kind !in store || store[kind] != read {
        ok := false;
      } else if ok || performed {
        store := store[kind := resource];
      }
      trace := trace + [store];
    }

    method Delete(kind: Kind) returns (r: WriteResult)
      modifies this
      ensures store == old(store) || store == old(store) - {kind}
      ensures !r.Rejected? ==> store == old(store) - {kind}
      ensures r.Missing? ==> kind !in old(store)
      ensures trace == old(trace) + [store]
      ensures calm ==> !r.Rejected?
    {
      var ok: bool := *;
      ok := ok || calm;
      var performed: bool := *;
      if kind !in store {
        r := if ok then Missing else Rejected;
      } else {
        r := if ok then Done else Rejected;
        if ok || performed {
          store := store - {kind};
        }
      }
      trace := trace + [store];
    }
  }

  // --- ensuring and deleting one resource ---

  method Ensure(cluster: Cluster, kind: Kind, managed: Managed, owner: Option<OwnerRef>) returns (ok: bool)
    requires cluster.Valid() && kind != RoleBinding
    requires forall j :: Rank(j) < Rank(kind) ==> j in cluster.store
    modifies cluster
    ensures cluster.Valid()
    ensures ok ==> cluster.store == old(cluster.store)[kind := Ensured(old(cluster.store), kind, managed, owner)]
    ensures cluster.store == old(cluster.store)
            || cluster.store == old(cluster.store)[kind := Ensured(old(cluster.store), kind, managed, owner)]
    ensures cluster.calm ==> ok
    ensures old(cluster.AllGood()) ==> cluster.AllGood()
  {
    var owners := EnsureOwnerRef([], owner);
    var desired := Resource(managed, NAME, owners, "");
    var existing := cluster.Get(kind);
    match existing {
      case GetFailed => ok := false;
      case NotFound => ok := cluster.Create(kind, desired);
      case Got(r) =>
        owners := EnsureOwnerRef(r.owners, owner);
        ok := cluster.Update(kind, r, r.(managed := managed, owners := owners));
    }
    if old(cluster.AllGood()) && cluster.store != old(cluster.store) {
      CreateKeepsGood(old(cluster.store), kind, cluster.store[kind]);
    }
  }

  /** Replaces a RoleBinding that was read with a different roleRef. In between it
      is gone, whatever exists after it. */
  method EnsureRoleBinding(cluster: Cluster, managed: Managed, owner: Option<OwnerRef>) returns (ok: bool)
    requires cluster.Valid() && ServiceAccount in cluster.store && Role in cluster.store
    modifies cluster
    ensures cluster.Valid()
    ensures forall k :: k != RoleBinding ==> (k in cluster.store <==> k in old(cluster.store))
    ensures forall k :: k != RoleBinding && k in cluster.store ==> cluster.store[k] == old(cluster.store)[k]
    ensures ok ==> AsWanted(cluster.store, RoleBinding, managed, owner)
    ensures cluster.calm ==> ok
    ensures old(cluster.AllGood()) ==>
              && cluster.AllGood()
              && (ok ==>
                    cluster.store == old(cluster.store)[
                      RoleBinding := Ensured(old(cluster.store), RoleBinding, managed, owner)])
    ensures ok && RoleBinding in old(cluster.store) && old(cluster.OtherRole()) ==>
              |cluster.trace| > |old(cluster.trace)| &&
              cluster.trace[|old(cluster.trace)|] == old(cluster.store) - {RoleBinding}
  {
    ghost var before := cluster.store;
    var owners := EnsureOwnerRef([], owner);
    var desired := Resource(managed, NAME, owners, "");
    var existing := cluster.Get(RoleBinding);
    match existing {
      case GetFailed => ok := false;
      case NotFound => ok := cluster.Create(RoleBinding, desired);
      case Got(r) =>
        if r.roleRef != NAME {
          var deleted := cluster.Delete(RoleBinding);
          if deleted.Rejected? {
            return false;
          }
          ok := cluster.Create(RoleBinding, desired);
        } else {
          owners := EnsureOwnerRef(r.owners, owner);
          ok := cluster.Update(RoleBinding, r, r.(managed := managed, owners := owners));
        }
    }
    if ok {
      var kept := RoleBinding in before && cluster.store[RoleBinding] == Ensured(before, RoleBinding, managed, owner);
      EnsuredIsStable(if kept then before else map[],
                      cluster.store, RoleBinding, managed, owner);
    }
    if old(cluster.AllGood()) && cluster.store != before {
      CreateKeepsGood(before, RoleBinding, cluster.store[RoleBinding]);
    }
  }

  method Remove(cluster: Cluster, kind: Kind) returns (ok: bool)
    requires cluster.Valid() && NothingFrom(cluster.store, Rank(kind) + 1)
    modifies cluster
    ensures cluster.Valid()
    ensures ok ==> NothingFrom(cluster.store, Rank(kind))
    ensures cluster.calm ==> ok
    ensures cluster.store == old(cluster.store) || cluster.store == old(cluster.store) - {kind}
    ensures old(cluster.AllGood()) ==> cluster.AllGood()
  {
    var r := cluster.Delete(kind);
    ok := !r.Rejected?;
    if old(cluster.AllGood()) && cluster.store != old(cluster.store) {
      DeleteKeepsGood(old(cluster.store), kind);
    }
  }

  // --- all six ---

  function OwnerOf(kind: Kind, deployment: Option<OwnerRef>, cluster: Option<OwnerRef>): Option<OwnerRef> {
    if kind == ConsolePlugin then cluster else deployment
  }

  /** The first `n` resources are there and as the operator wants them. */
  ghost predicate WantedUpTo(store: Store, n: nat, arguments: seq<string>,
                             deployment: Option<OwnerRef>, plugin: Option<OwnerRef>) {
    forall k :: Rank(k) < n ==> AsWanted(store, k, Build(k, arguments), OwnerOf(k, deployment, plugin))
  }

  lemma WantedNext(before: Store, store: Store, kind: Kind, arguments: seq<string>,
                   deployment: Option<OwnerRef>, plugin: Option<OwnerRef>)
    requires WantedUpTo(before, Rank(kind), arguments, deployment, plugin)
    requires AsWanted(store, kind, Build(kind, arguments), OwnerOf(kind, deployment, plugin))
    requires forall k :: k != kind && k in before ==> k in store && store[k] == before[k]
    ensures WantedUpTo(store, Rank(kind) + 1, arguments, deployment, plugin)
  {
    forall k | Rank(k) < Rank(kind) + 1
      ensures AsWanted(store, k, Build(k, arguments), OwnerOf(k, deployment, plugin))
    {
      assert Rank(k) < Rank(kind) || k == kind;
      if k != kind {
        assert AsWanted(before, k, Build(k, arguments), OwnerOf(k, deployment, plugin));
      }
    }
  }

  method EnsureNext(cluster: Cluster, kind: Kind, arguments: seq<string>,
                    deployment: Option<OwnerRef>, plugin: Option<OwnerRef>)
    returns (ok: bool)
    requires cluster.Valid()
    requires WantedUpTo(cluster.store, Rank(kind), arguments, deployment, plugin)
    modifies cluster
    ensures cluster.Valid()
    ensures ok ==> WantedUpTo(cluster.store, Rank(kind) + 1, arguments, deployment, plugin)
    ensures cluster.calm ==> ok
    ensures old(cluster.AllGood()) ==> cluster.AllGood()
    ensures old(cluster.AllGood()) && ok && WantedUpTo(old(cluster.store), 6, arguments, deployment, plugin) ==>
              cluster.store == old(cluster.store)
  {
    ghost var before := cluster.store;
    var managed, owner := Build(kind, arguments), OwnerOf(kind, deployment, plugin);
    assert WantedUpTo(before, 6, arguments, deployment, plugin) ==> AsWanted(before, kind, managed, owner);
    forall j | Rank(j) < Rank(kind)
      ensures j in cluster.store
    {
      assert AsWanted(cluster.store, j, Build(j, arguments), OwnerOf(j, deployment, plugin));
    }
    if kind == RoleBinding {
      ok := EnsureRoleBinding(cluster, managed, owner);
    } else {
      ok := Ensure(cluster, kind, managed, owner);
      if ok {
        EnsuredIsStable(before, cluster.store, kind, managed, owner);
      }
    }
    if ok {
      WantedNext(before, cluster.store, kind, arguments, deployment, plugin);
    }
  }

  method EnsureAccess(cluster: Cluster, arguments: seq<string>,
                      deployment: Option<OwnerRef>, plugin: Option<OwnerRef>)
    returns (ok: bool)
    requires cluster.Valid()
    modifies cluster
    ensures cluster.Valid()
    ensures ok ==> WantedUpTo(cluster.store, 3, arguments, deployment, plugin)
    ensures cluster.calm ==> ok
    ensures old(cluster.AllGood()) ==> cluster.AllGood()
    ensures old(cluster.AllGood()) && ok && WantedUpTo(old(cluster.store), 6, arguments, deployment, plugin) ==>
              cluster.store == old(cluster.store)
  {
    ok := EnsureNext(cluster, ServiceAccount, arguments, deployment, plugin);
    if !ok {
      return;
    }
    ok := EnsureNext(cluster, Role, arguments, deployment, plugin);
    if !ok {
      return;
    }
    ok := EnsureNext(cluster, RoleBinding, arguments, deployment, plugin);
  }

  method EnsureWorkload(cluster: Cluster, arguments: seq<string>,
                        deployment: Option<OwnerRef>, plugin: Option<OwnerRef>)
    returns (ok: bool)
    requires cluster.Valid()
    requires WantedUpTo(cluster.store, 3, arguments, deployment, plugin)
    modifies cluster
    ensures cluster.Valid()
    ensures ok ==> WantedUpTo(cluster.store, 6, arguments, deployment, plugin)
    ensures cluster.calm ==> ok
    ensures old(cluster.AllGood()) ==> cluster.AllGood()
    ensures old(cluster.AllGood()) && ok && WantedUpTo(old(cluster.store), 6, arguments, deployment, plugin) ==>
              cluster.store == old(cluster.store)
  {
    ok := EnsureNext(cluster, Service, arguments, deployment, plugin);
    if !ok {
      return;
    }
    ok := EnsureNext(cluster, Deployment, arguments, deployment, plugin);
    if !ok {
      return;
    }
    ok := EnsureNext(cluster, ConsolePlugin, arguments, deployment, plugin);
  }

  /** Creates or updates all six, one after the other. */
  method EnsureAll(cluster: Cluster, arguments: seq<string>,
                   deployment: Option<OwnerRef>, plugin: Option<OwnerRef>)
    returns (ok: bool)
    requires cluster.Valid()
    modifies cluster
    ensures cluster.Valid()
    ensures ok ==> WantedUpTo(cluster.store, 6, arguments, deployment, plugin)
    ensures cluster.calm ==> ok
    ensures old(cluster.AllGood()) ==> cluster.AllGood()
    ensures old(cluster.AllGood()) && ok && WantedUpTo(old(cluster.store), 6, arguments, deployment, plugin) ==>
              cluster.store == old(cluster.store)
  {
    ok := EnsureAccess(cluster, arguments, deployment, plugin);
    if !ok {
      return;
    }
    ok := EnsureWorkload(cluster, arguments, deployment, plugin);
  }

  /** Deletes all six, in the reverse order. */
  method RemoveAll(cluster: Cluster) returns (ok: bool)
    requires cluster.Valid()
    modifies cluster
    ensures cluster.Valid()
    ensures ok ==> cluster.store == map[]
    ensures cluster.calm ==> ok
    ensures old(cluster.AllGood()) ==> cluster.AllGood()
  {
    assert NothingFrom(cluster.store, 6);
    ok := Remove(cluster, ConsolePlugin);
    if !ok {
      return;
    }
    ok := Remove(cluster, Deployment);
    if !ok {
      return;
    }
    ok := Remove(cluster, Service);
    if !ok {
      return;
    }
    ok := Remove(cluster, RoleBinding);
    if !ok {
      return;
    }
    ok := Remove(cluster, Role);
    if !ok {
      return;
    }
    ok := Remove(cluster, ServiceAccount);
  }

  /** What a wanted resource looks like. */
  lemma AsWantedMeaning(store: Store, kind: Kind, managed: Managed, owner: Option<OwnerRef>)
    requires AsWanted(store, kind, managed, owner)
    ensures store[kind].managed == managed && (kind == RoleBinding ==> store[kind].roleRef == NAME)
    ensures owner.Some? ==> owner.value in store[kind].owners
  {
    if owner.Some? {
      OwnerRefEnsured(store[kind].owners, owner.value);
      OwnerRefEnsured([], owner.value);
    }
  }

  /** What `EnsureAll` leaves: all six kinds with their content, the Deployment with
      these arguments, and the owners where they belong. */
  lemma AllWantedMeaning(store: Store, arguments: seq<string>, deployment: Option<OwnerRef>, plugin: Option<OwnerRef>)
    requires WantedUpTo(store, 6, arguments, deployment, plugin)
    ensures forall k: Kind :: k in store && store[k].managed.kind == k
    ensures store[Deployment].managed.arguments == arguments
    ensures store[RoleBinding].roleRef == NAME
    ensures plugin.Some? ==> plugin.value in store[ConsolePlugin].owners
    ensures deployment.Some? ==> forall k: Kind :: k != ConsolePlugin ==> deployment.value in store[k].owners
  {
    forall k: Kind
      ensures k in store && store[k].managed == Build(k, arguments)
      ensures k == RoleBinding ==> store[k].roleRef == NAME
      ensures OwnerOf(k, deployment, plugin).Some? ==> OwnerOf(k, deployment, plugin).value in store[k].owners
    {
      assert Rank(k) < 6;
      AsWantedMeaning(store, k, Build(k, arguments), OwnerOf(k, deployment, plugin));
    }
  }

  /** An existing resource keeps what the operator does not manage, and every owner with
      another UID. */
  lemma AdoptedKeepsTheRest(existing: Resource, managed: Managed, owner: Option<OwnerRef>)
    ensures var r := Adopted(existing, managed, owner);
            && r.managed == managed && r.rest == existing.rest && r.roleRef == existing.roleRef
            && (owner.None? ==> r.owners == existing.owners)
            && (owner.Some? ==> owner.value in r.owners
                                && forall o :: o in existing.owners && o.uid != owner.value.uid ==> o in r.owners)
  {
    if owner.Some? {
      OwnerRefEnsured(existing.owners, owner.value);
    }
  }

  /** Only a RoleBinding that binds another role is not adopted. */
  lemma EnsuredMeaning(store: Store, kind: Kind, managed: Managed, owner: Option<OwnerRef>)
    ensures kind in store && !(kind == RoleBinding && store[kind].roleRef != NAME) ==>
              Ensured(store, kind, managed, owner) == Adopted(store[kind], managed, owner)
    ensures kind !in store || (kind == RoleBinding && store[kind].roleRef != NAME) ==>
              && Ensured(store, kind, managed, owner).managed == managed
              && Ensured(store, kind, managed, owner).roleRef == NAME
              && Ensured(store, kind, managed, owner).owners == if owner.Some? then [owner.value] else []
  {
  }

  // --- the reconciler ---

  /** The Deployment that controls the operator's pod, if that can be found out. */
  datatype Controller =
    | LookupFailed | NotControlled |
    Controlled(name: string, uid: string, olmManaged: bool, olmOwner: string)

  datatype ConfigMap = Unreadable | Readable(consolePluginEnabled: Option<string>, ghApiUrl: Option<string>)

  /** What the cluster answers during one reconcile. */
  datatype Answers = Answers(
    controller: Controller,
    binding: Option<OwnerRef>,       // the ClusterRoleBinding of the operator's service account
    config: ConfigMap,
    configAgain: ConfigMap,          // the same ConfigMap, read a second time
    apiServerURL: Option<string>,
    clusterID: Option<string>,
    ghApiUrlDefault: string)

  /** Without the key the plugin is disabled; None is an error. */
  function IsEnabled(config: ConfigMap): Option<bool> {
    if config.Unreadable? then None
    else if config.consolePluginEnabled.None? then Some(false)
    else ParseBool(config.consolePluginEnabled.value)
  }

  function GitHubURL(a: Answers): string {
    if a.configAgain.Unreadable? then ""
    else if a.configAgain.ghApiUrl.Some? && a.configAgain.ghApiUrl.value != "" then a.configAgain.ghApiUrl.value
    else a.ghApiUrlDefault
  }

  function ArgumentsFor(a: Answers): seq<string>
    requires a.apiServerURL.Some? && a.clusterID.Some?
  {
    BuildArguments(Settings(a.apiServerURL.value, a.clusterID.value, GitHubURL(a)))
  }

  /** The plugin is enabled by a true value only, and a value that is none is an
      error, as is a ConfigMap that cannot be read. */
  lemma EnabledMeaning(config: ConfigMap)
    ensures config.Unreadable? ==> IsEnabled(config) == None
    ensures config.Readable? && config.consolePluginEnabled.None? ==> IsEnabled(config) == Some(false)
    ensures config.Readable? && config.consolePluginEnabled.Some? ==>
              var v := config.consolePluginEnabled.value;
              && (IsEnabled(config) == Some(true) <==> v in ["1", "t", "T", "TRUE", "true", "True"])
              && (IsEnabled(config) == Some(false) <==> v in ["0", "f", "F", "FALSE", "false", "False"])
  {
  }

  /** The arguments carry the API server, the cluster and, if there is one, the GitHub
      URL: that of the ConfigMap as it was read again, or else the default. */
  lemma ArgumentsMeaning(a: Answers)
    requires a.apiServerURL.Some? && a.clusterID.Some?
    ensures var arguments := ArgumentsFor(a);
            && |arguments| == (if GitHubURL(a) == "" then 3 else 4)
            && arguments[0] == "--https-port=9443"
            && arguments[1] == "--external-api-server-url=" + a.apiServerURL.value
            && arguments[2] == "--cluster-id=" + a.clusterID.value
            && (GitHubURL(a) != "" ==> arguments[3] == "--gh-api-url=" + GitHubURL(a))
    ensures a.configAgain.Unreadable? ==> GitHubURL(a) == ""
    ensures forall url :: a.configAgain.Readable? && a.configAgain.ghApiUrl == Some(url) && url != "" ==>
              GitHubURL(a) == url
    ensures a.configAgain.Readable? && (a.configAgain.ghApiUrl.None? || a.configAgain.ghApiUrl.value == "") ==>
              GitHubURL(a) == a.ghApiUrlDefault
  {
  }

  class Reconciler {
    const podNameSet: bool
    var ownerInfoResolved: bool
    var deploymentOwnerRef: Option<OwnerRef>
    var clusterOwnerRef: Option<OwnerRef>

    constructor (podNameSet: bool)
      ensures !ownerInfoResolved && deploymentOwnerRef == clusterOwnerRef == None && Valid()
    {
      this.podNameSet := podNameSet;
      ownerInfoResolved := false;
      deploymentOwnerRef := None;
      clusterOwnerRef := None;
    }

    /** Only a resolved owner of the plugin has an owner of the rest without it. */
    ghost predicate Valid()
      reads this
    {
      clusterOwnerRef.Some? ==> deploymentOwnerRef.Some? && ownerInfoResolved
    }

    /** These answers settle who owns the resources. */
    predicate Resolvable(a: Answers) {
      || !podNameSet || a.controller.NotControlled?
      || (a.controller.Controlled? && !a.controller.olmManaged)
      || (a.controller.Controlled? && a.controller.olmOwner != "" && a.binding.Some?)
    }

    /** With these answers a reconcile can succeed. */
    predicate Orderly(a: Answers)
      reads this
    {
      && (ownerInfoResolved || Resolvable(a))
      && IsEnabled(a.config).Some?
      && (IsEnabled(a.config).value ==> a.apiServerURL.Some? && a.clusterID.Some?)
    }

    /** Once resolved the owners never change. A failure to find the binding leaves
        the owner of the other resources set. */
    method ResolveOLMOwnership(a: Answers) returns (ok: bool)
      requires Valid()
      modifies this
      ensures Valid()
      ensures ok <==> ownerInfoResolved
      ensures old(ownerInfoResolved) ==> unchanged(this)
      ensures ok <==> old(ownerInfoResolved) || Resolvable(a)
      ensures !ok ==> clusterOwnerRef == None
      ensures !ok && a.controller.Controlled? && a.controller.olmOwner != "" ==>
                deploymentOwnerRef == Some(OwnerRef(a.controller.uid, "Deployment", a.controller.name))
      ensures !ok && !(a.controller.Controlled? && a.controller.olmOwner != "") ==>
                deploymentOwnerRef == old(deploymentOwnerRef)
      ensures ok && !old(ownerInfoResolved) && podNameSet && a.controller.Controlled? && a.controller.olmManaged ==>
                && clusterOwnerRef == a.binding && clusterOwnerRef.Some?
                && deploymentOwnerRef == Some(OwnerRef(a.controller.uid, "Deployment", a.controller.name))
    {
      if ownerInfoResolved {
        return true;
      }
      if !podNameSet {
        ownerInfoResolved := true;
        return true;
      }
      if a.controller.LookupFailed? {
        return false;
      }
      if a.controller.NotControlled? {
        ownerInfoResolved := true;
        return true;
      }
      if !a.controller.olmManaged {
        ownerInfoResolved := true;
        return true;
      }
      if a.controller.olmOwner == "" {
        return false;
      }
      deploymentOwnerRef := Some(OwnerRef(a.controller.uid, "Deployment", a.controller.name));
      if a.binding.None? {
        return false;
      }
      clusterOwnerRef := a.binding;
      ownerInfoResolved := true;
      return true;
    }

    /** Whether the store is what the answers ask for. */
    ghost predicate Converged(store: Store, a: Answers)
      reads this
    {
      match IsEnabled(a.config)
      case None => false
      case Some(enabled) =>
        if enabled then
          && a.apiServerURL.Some? && a.clusterID.Some?
          && WantedUpTo(store, 6, ArgumentsFor(a), deploymentOwnerRef, clusterOwnerRef)
        else store == map[]
    }

    /** A reconcile without an error ends with all six resources as wanted or with
        none of them, and without a failing call there is no error. If the resources
        so far had no gap then none ever shows, at whatever call it fails. */
    method Reconcile(cluster: Cluster, a: Answers) returns (ok: bool)
      requires Valid() && cluster.Valid()
      modifies this, cluster
      ensures Valid() && cluster.Valid()
      ensures old(ownerInfoResolved) ==> unchanged(this)
      ensures ok ==> ownerInfoResolved && Converged(cluster.store, a) && old(Orderly(a))
      ensures cluster.calm && Orderly(a) ==> ok
      ensures old(cluster.AllGood()) ==> cluster.AllGood()
      ensures ok && old(cluster.AllGood()) && old(ownerInfoResolved) && old(Converged(cluster.store, a)) ==>
                cluster.store == old(cluster.store)
    {
      ok := ResolveOLMOwnership(a);
      if !ok {
        return false;
      }
      match IsEnabled(a.config) {
        case None => ok := false;
        case Some(enabled) =>
          if enabled {
            if a.apiServerURL.None? || a.clusterID.None? {
              return false;
            }
            ok := EnsureAll(cluster, ArgumentsFor(a), deploymentOwnerRef, clusterOwnerRef);
          } else {
            ok := RemoveAll(cluster);
          }
      }
    }
  }

  /** The same reconcile again, if both go well, changes nothing. */
  method ReconcileTwice(r: Reconciler, cluster: Cluster, a: Answers) returns (ok: bool, ghost between: Store)
    requires r.Valid() && cluster.Valid() && cluster.AllGood()
    modifies r, cluster
    ensures ok ==> cluster.store == between && r.Converged(cluster.store, a)
  {
    ok := r.Reconcile(cluster, a);
    between := cluster.store;
    if ok {
      ok := r.Reconcile(cluster, a);
    }
  }

  /** Starting from none: whatever the answers are, whatever fails, and however
      often the plugin is switched on and off, every store in between is a prefix of
      the six, and the last reconcile without an error decides. */
  method ReconcileAll(r: Reconciler, answers: seq<Answers>, calm: bool) returns (cluster: Cluster, results: seq<bool>)
    requires r.Valid()
    modifies r
    ensures fresh(cluster) && |results| == |answers|
    ensures forall i :: 0 <= i < |cluster.trace| ==> Prefix(cluster.trace[i])
    ensures cluster.trace != [] && cluster.trace[|cluster.trace| - 1] == cluster.store
    ensures answers != [] && results[|answers| - 1] ==> r.Converged(cluster.store, answers[|answers| - 1])
    ensures answers != [] && calm && r.Orderly(answers[|answers| - 1]) ==> results[|answers| - 1]
  {
    cluster := new Cluster(calm);
    results := [];
    for n := 0 to |answers|
      invariant fresh(cluster) && r.Valid() && cluster.Valid() && cluster.AllGood() && |results| == n
      invariant n > 0 && results[n - 1] ==> r.Converged(cluster.store, answers[n - 1])
      invariant cluster.calm == calm && (n > 0 && calm && r.Orderly(answers[n - 1]) ==> results[n - 1])
    {
      var ok := r.Reconcile(cluster, answers[n]);
      results := results + [ok];
    }
  }
}
