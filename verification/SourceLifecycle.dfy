/** The ObjectBucketSource controller as a system of steps. Its one worker reads
    through a cache that lags behind the API server but never goes backwards;
    between any two of its steps users create, edit and delete sources. The
    sources of one namespace are modelled; a bucket has the name of its claim. */
module SourceLifecycle {
  import opened Text
  import opened EventDispatch
  import opened Sequences

  /** A status condition: whether it is True, and for which generation. */
  datatype Condition = Condition(isTrue: bool, observedGeneration: nat)

  datatype Source = Source(
    version: nat,                          // resourceVersion
    generation: nat,
    spec: Spec,
    finalizer: bool,
    deleting: bool,                        // has a deletion timestamp
    credentials: Option<Condition>,        // OBCCredentialsAvailable
    notificationSet: Option<Condition>)    // BucketNotificationSet

  type Store = map<string, Source>

  // --- merging subscriptions ---

  /** The patterns of all live sources of a claim but the excluded one. */
  function Merged(sources: Store, obc: string, excluded: string): set<string> {
    set n, e | n in sources && n != excluded && sources[n].spec.obc == obc && !sources[n].deleting
               && e in sources[n].spec.events :: e
  }

  /** computeMergedEventsExcluding: `items` is the listed sources in any order.
      An empty `excluded` excludes nobody. */
  method ComputeMergedEvents(items: seq<(string, Source)>, obc: string, excluded: string) returns (events: seq<string>)
    requires forall i :: 0 <= i < |items| ==> items[i].0 != ""
    ensures forall i, j :: 0 <= i < j < |events| ==> events[i] != events[j]
    ensures forall e :: e in events <==>
              exists i :: 0 <= i < |items| && Contributes(items[i], obc, excluded) && e in items[i].1.spec.events
  {
    var eventSet: set<string> := {};
    for i := 0 to |items|
      invariant forall e :: e in eventSet <==>
                  exists j :: 0 <= j < i && Contributes(items[j], obc, excluded) && e in items[j].1.spec.events
    {
      var (name, t) := items[i];
      if t.spec.obc != obc {
        continue;
      }
      if excluded != "" && name == excluded {
        continue;
      }
      if t.deleting && name != excluded {
        continue;
      }
      ghost var before := eventSet;
      for k := 0 to |t.spec.events|
        invariant forall e :: e in eventSet <==> e in before || e in t.spec.events[..k]
      {
        eventSet := eventSet + {t.spec.events[k]};
      }
      assert t.spec.events[..|t.spec.events|] == t.spec.events;
    }
    events := [];
    var left := eventSet;
    while left != {}
      invariant left <= eventSet
      invariant forall e :: e in events <==> e in eventSet && e !in left
      invariant forall i, j :: 0 <= i < j < |events| ==> events[i] != events[j]
      decreases left
    {
      var e :| e in left;
      left := left - {e};
      events := events + [e];
    }
  }

  predicate Contributes(item: (string, Source), obc: string, excluded: string) {
    item.1.spec.obc == obc && item.0 != excluded && !item.1.deleting
  }

  /** The list in any order gives the merged patterns of the map it lists. */
  lemma MergedOfItems(items: seq<(string, Source)>, sources: Store, obc: string, excluded: string, e: string)
    requires forall i :: 0 <= i < |items| ==> items[i].0 in sources && sources[items[i].0] == items[i].1
    requires forall n :: n in sources ==> (n, sources[n]) in items
    ensures e in Merged(sources, obc, excluded) <==>
            exists i :: 0 <= i < |items| && Contributes(items[i], obc, excluded) && e in items[i].1.spec.events
  {
    if e in Merged(sources, obc, excluded) {
      var n :| n in sources && n != excluded && sources[n].spec.obc == obc && !sources[n].deleting
               && e in sources[n].spec.events;
      var i :| 0 <= i < |items| && items[i] == (n, sources[n]);
      assert Contributes(items[i], obc, excluded);
    }
  }

  // --- state ---

  /** Where the worker is. `source` is its in-memory copy of the object. */
  datatype Worker =
    | Idle
    | Fetched(name: string, source: Source)
    | Listing(name: string, source: Source)
    | Listed(name: string, source: Source, merged: set<string>)
    | Marking(name: string, source: Source, ok: bool)
    | Remaining(name: string, source: Source, merged: set<string>)
    | Finalizing(name: string, source: Source)

  datatype State = State(
    stores: seq<Store>,                  // every state of the API server so far, the current one last
    seen: nat,                           // the cache holds stores[seen]
    nextVersion: nat,
    buckets: map<string, set<string>>,   // the notification configuration of each bucket
    worker: Worker)
  {
    function Store(): Store
      requires stores != []
    {
      stores[|stores| - 1]
    }

    function Cache(): Store
      requires seen < |stores|
    {
      stores[seen]
    }

    function Configured(bucket: string): set<string> {
      if bucket in buckets then buckets[bucket] else {}
    }

    function Commit(store: Store): State {
      this.(stores := stores + [store], nextVersion := nextVersion + 1)
    }
  }

  ghost predicate Init(s: State) {
    s.stores == [map[]] && s.seen == 0 && s.worker == Idle
  }

  // --- steps ---

  /** What others do to the API server, and the cache catching up. */
  datatype Outside =
    | Create(spec: Spec)
    | Edit(spec: Spec)
    | Touch
    | Delete
    | CatchUp

  /** The worker's steps, with the outcome of the calls they make. `reaches` says
      whether a write gets to the API server, `applied` whether a bucket
      configuration takes effect; an error may be reported all the same. */
  datatype Inside =
    | Get(name: string)
    | AddFinalizer(reaches: bool)
    | Unresolved(reaches: bool)
    | Resolved(reaches: bool)
    | List(ok: bool)
    | Put(applied: bool, ok: bool)
    | Mark(reaches: bool)
    | SkipBucket
    | ListRemaining
    | PutRemaining(applied: bool)
    | RemoveFinalizer(reaches: bool)

  datatype Action = Others(name: string, outside: Outside) | Work(inside: Inside)

  /** Whether an update based on `source` would be accepted. */
  predicate Matches(store: Store, name: string, source: Source) {
    name in store && store[name].version == source.version
  }

  /** An update or status update based on the version of `source`. */
  function Write(s: State, name: string, source: Source, reaches: bool): State
    requires s.stores != []
  {
    if !reaches || !Matches(s.Store(), name, source) || s.Store()[name] == source then s
    else s.Commit(s.Store()[name := source.(version := s.nextVersion)])
  }

  /** The in-memory object after the update: a successful one returns the new
      version. */
  function Written(s: State, name: string, source: Source, reaches: bool): Source
    requires s.stores != []
  {
    if !reaches || !Matches(s.Store(), name, source) || s.Store()[name] == source then source
    else source.(version := s.nextVersion)
  }

  predicate OutsideEnabled(s: State, name: string, step: Outside)
    requires s.stores != []
  {
    match step
    case Create(_) => name != "" && name !in s.Store()
    case Edit(_) => name in s.Store()
    case Touch => name in s.Store()
    case Delete => name in s.Store()
    case CatchUp => s.seen + 1 < |s.stores|
  }

  function ApplyOutside(s: State, name: string, step: Outside): State
    requires s.stores != [] && OutsideEnabled(s, name, step)
  {
    var store := s.Store();
    match step
    case Create(spec) =>
      s.Commit(store[name := Source(s.nextVersion, 1, spec, false, false, None, None)])
    case Edit(spec) =>
      var source := store[name];
      s.Commit(store[name := source.(version := s.nextVersion, generation := source.generation + 1, spec := spec)])
    case Touch =>
      s.Commit(store[name := store[name].(version := s.nextVersion)])
    case Delete =>
      var source := store[name];
      if source.deleting then s
      else if source.finalizer then
        s.Commit(store[name := source.(version := s.nextVersion, generation := source.generation + 1,
                                        deleting := true)])
      else s.Commit(store - {name})
    case CatchUp => s.(seen := s.seen + 1)
  }

  predicate InsideEnabled(s: State, step: Inside) {
    var w := s.worker;
    match step
    case Get(_) => w.Idle?
    case AddFinalizer(_) => w.Fetched? && !w.source.deleting && !w.source.finalizer
    case Unresolved(_) => w.Fetched? && !w.source.deleting && w.source.finalizer
    case Resolved(_) => w.Fetched? && !w.source.deleting && w.source.finalizer
    case List(_) => w.Listing?
    case Put(applied, ok) => w.Listed? && (ok ==> applied)
    case Mark(_) => w.Marking?
    case SkipBucket => w.Fetched? && w.source.deleting && w.source.finalizer
    case ListRemaining => w.Fetched? && w.source.deleting && w.source.finalizer
    case PutRemaining(_) => w.Remaining?
    case RemoveFinalizer(_) => w.Finalizing?
  }

  function ApplyInside(s: State, step: Inside): State
    requires s.seen < |s.stores| && InsideEnabled(s, step)
  {
    var w := s.worker;
    match step
    case Get(name) =>
      if name !in s.Cache() || (s.Cache()[name].deleting && !s.Cache()[name].finalizer) then s
      else s.(worker := Fetched(name, s.Cache()[name]))
    case AddFinalizer(reaches) =>
      Write(s, w.name, w.source.(finalizer := true), reaches).(worker := Idle)
    case Unresolved(reaches) =>
      Write(s, w.name, w.source.(credentials := Some(Condition(false, w.source.generation))), reaches).(worker := Idle)
    case Resolved(reaches) =>
      var source := w.source.(credentials := Some(Condition(true, w.source.generation)));
      Write(s, w.name, source, reaches).(worker := Listing(w.name, Written(s, w.name, source, reaches)))
    case List(ok) =>
      s.(worker := if ok then Listed(w.name, w.source, Merged(s.Cache(), w.source.spec.obc, "")) else Idle)
    case Put(applied, ok) =>
      s.(buckets := if applied then s.buckets[w.source.spec.obc := w.merged] else s.buckets,
         worker := Marking(w.name, w.source, ok))
    case Mark(reaches) =>
      var source := w.source.(notificationSet := Some(Condition(w.ok, w.source.generation)));
      Write(s, w.name, source, reaches).(worker := Idle)
    case SkipBucket => s.(worker := Finalizing(w.name, w.source))
    case ListRemaining =>
      s.(worker := Remaining(w.name, w.source, Merged(s.Cache(), w.source.spec.obc, w.name)))
    case PutRemaining(applied) =>
      s.(buckets := if applied then s.buckets[w.source.spec.obc := w.merged] else s.buckets,
         worker := Finalizing(w.name, w.source))
    case RemoveFinalizer(reaches) =>
      (if reaches && Matches(s.Store(), w.name, w.source) then s.Commit(s.Store() - {w.name}) else s).(worker := Idle)
  }

  predicate Enabled(s: State, a: Action)
    requires s.stores != []
  {
    match a
    case Others(name, step) => OutsideEnabled(s, name, step)
    case Work(step) => InsideEnabled(s, step)
  }

  function Apply(s: State, a: Action): State
    requires s.seen < |s.stores| && Enabled(s, a)
  {
    match a
    case Others(name, step) => ApplyOutside(s, name, step)
    case Work(step) => ApplyInside(s, step)
  }

  ghost predicate Run(s: State, actions: seq<Action>, t: State)
    decreases |actions|
  {
    if actions == [] then s == t
    else s.seen < |s.stores| && Enabled(s, actions[0]) && Run(Apply(s, actions[0]), actions[1..], t)
  }

  ghost predicate Reachable(s: State) {
    exists s0: State, actions: seq<Action> :: Init(s0) && Run(s0, actions, s)
  }

  // --- invariants ---

  /** The source says that its bucket forwards what it subscribes to now. */
  predicate Claims(source: Source) {
    !source.deleting && source.notificationSet.Some?
    && source.notificationSet.value.isTrue && source.notificationSet.value.observedGeneration == source.generation
  }

  predicate Covered(s: State, source: Source) {
    forall e :: e in source.spec.events ==> e in s.Configured(source.spec.obc)
  }

  predicate SameSubscription(a: Source, b: Source) {
    a.deleting == b.deleting && a.spec.obc == b.spec.obc && a.spec.events == b.spec.events
  }

  /** From what the cache holds up to now, `name` has always had the
      subscription of `source`. */
  predicate SeenAs(s: State, name: string, source: Source) {
    forall i :: s.seen <= i < |s.stores| ==> name in s.stores[i] && SameSubscription(s.stores[i][name], source)
  }

  predicate WellFormed(s: State) {
    && s.seen < |s.stores|
    && (forall i, n :: 0 <= i < |s.stores| && n in s.stores[i] ==> Sane(s.stores[i][n], s.nextVersion) && n != "")
  }

  predicate Sane(source: Source, nextVersion: nat) {
    && source.version < nextVersion
    && (source.notificationSet.Some? ==> source.notificationSet.value.observedGeneration <= source.generation)
  }

  predicate KeptSince(stores: seq<Store>, i: nat, n: string)
    requires stores != [] && n in stores[|stores| - 1]
  {
    forall j :: i <= j < |stores| ==> n in stores[j] && stores[j][n] == stores[|stores| - 1][n]
  }

  /** A version of an object is never reused: where the current version was
      found once, the object has been the same ever since. */
  predicate VersionsIdentify(stores: seq<Store>) {
    stores != [] ==>
      forall i: nat, n: string | i < |stores| && n in stores[i] && n in stores[|stores| - 1] ::
        stores[i][n].version == stores[|stores| - 1][n].version ==> KeptSince(stores, i, n)
  }

  predicate ClaimsHold(s: State)
    requires s.stores != []
  {
    forall n :: n in s.Store() && Claims(s.Store()[n]) ==>
      SeenAs(s, n, s.Store()[n]) && Covered(s, s.Store()[n])
  }

  predicate MergedCoversClaims(s: State, obc: string, merged: set<string>)
    requires s.stores != []
  {
    forall n, e :: n in s.Store() && Claims(s.Store()[n]) && s.Store()[n].spec.obc == obc
                     && e in s.Store()[n].spec.events
                   ==> e in merged
  }

  predicate WorkerKnows(s: State)
    requires s.stores != []
  {
    var w := s.worker;
    var store := s.Store();
    w.Idle? ||
    (&& Sane(w.source, s.nextVersion)
     && (Matches(store, w.name, w.source) ==>
           && SeenAs(s, w.name, w.source)
           && store[w.name] == w.source.(credentials := store[w.name].credentials))
     && (w.Listing? || w.Listed? || w.Marking? ==> !w.source.deleting)
     && (w.Remaining? || w.Finalizing? ==> w.source.deleting)
     && (w.source.deleting ==> !(w.name in store && Claims(store[w.name])))
     && (w.Listed? || w.Remaining? ==> MergedCoversClaims(s, w.source.spec.obc, w.merged))
     && (w.Listed? && Matches(store, w.name, w.source) ==> forall e :: e in w.source.spec.events ==> e in w.merged)
     && (w.Marking? && w.ok && Matches(store, w.name, w.source) ==> Covered(s, w.source)))
  }

  predicate Inv(s: State) {
    && WellFormed(s)
    && VersionsIdentify(s.stores)
    && ClaimsHold(s)
    && WorkerKnows(s)
  }

  // --- one change of the store ---

  lemma CommitIdentifies(stores: seq<Store>, n: string, source: Source, version: nat)
    requires stores != [] && VersionsIdentify(stores) && source.version == version
    requires forall i, m :: 0 <= i < |stores| && m in stores[i] ==> stores[i][m].version < version
    ensures VersionsIdentify(stores + [stores[|stores| - 1][n := source]])
  {
    var last: Store := stores[|stores| - 1];
    var stores': seq<Store> := stores + [last[n := source]];
    forall i: nat, m: string | i < |stores'| && m in stores'[i] && m in last[n := source]
                               && stores'[i][m].version == last[n := source][m].version
      ensures KeptSince(stores', i, m)
    {
      if m != n && i < |stores| {
        assert KeptSince(stores, i, m);
      }
    }
  }

  lemma RemovalIdentifies(stores: seq<Store>, n: string)
    requires stores != [] && VersionsIdentify(stores)
    ensures VersionsIdentify(stores + [stores[|stores| - 1] - {n}])
  {
    var last: Store := stores[|stores| - 1];
    var stores': seq<Store> := stores + [last - {n}];
    forall i: nat, m: string | i < |stores'| && m in stores'[i] && m in last - {n}
                               && stores'[i][m].version == (last - {n})[m].version
      ensures KeptSince(stores', i, m)
    {
      if i < |stores| {
        assert KeptSince(stores, i, m);
      }
    }
  }

  lemma SeenAsCommit(s: State, n: string, source: Source, store: Store)
    requires s.stores != [] && SeenAs(s, n, source)
    requires n in store && SameSubscription(store[n], source)
    ensures SeenAs(s.Commit(store), n, source)
  {
  }

  /** Putting a source that does not claim anything, or that claims no more than
      before, keeps all claims. */
  lemma CommitKeepsClaims(s: State, n: string, source: Source)
    requires s.stores != [] && ClaimsHold(s)
    requires Claims(source) ==> SeenAs(s, n, source) && Covered(s, source)
    ensures ClaimsHold(s.Commit(s.Store()[n := source]))
  {
    var t := s.Commit(s.Store()[n := source]);
    forall m | m in t.Store() && Claims(t.Store()[m])
      ensures SeenAs(t, m, t.Store()[m]) && Covered(t, t.Store()[m])
    {
      if m == n {
        SeenAsCommit(s, n, source, t.Store());
      } else {
        SeenAsCommit(s, m, s.Store()[m], t.Store());
      }
    }
  }

  lemma RemovalKeepsClaims(s: State, n: string)
    requires s.stores != [] && ClaimsHold(s)
    ensures ClaimsHold(s.Commit(s.Store() - {n}))
  {
    var t := s.Commit(s.Store() - {n});
    forall m | m in t.Store() && Claims(t.Store()[m])
      ensures SeenAs(t, m, t.Store()[m]) && Covered(t, t.Store()[m])
    {
      SeenAsCommit(s, m, s.Store()[m], t.Store());
    }
  }

  // --- what others do ---

  /** A change by someone else that sets no claim leaves the worker's knowledge
      true: what it knew about an object it no longer matches is void. */
  lemma OthersKeepWorker(s: State, n: string, source: Source)
    requires Inv(s) && !Claims(source) && source.version == s.nextVersion
    ensures WorkerKnows(s.Commit(s.Store()[n := source]))
  {
    var w := s.worker;
    var t := s.Commit(s.Store()[n := source]);
    if !w.Idle? && Matches(t.Store(), w.name, w.source) {
      assert w.name != n && Matches(s.Store(), w.name, w.source);
      SeenAsCommit(s, w.name, w.source, t.Store());
    }
  }

  lemma RemovalKeepsWorker(s: State, n: string)
    requires Inv(s)
    ensures WorkerKnows(s.Commit(s.Store() - {n}))
  {
    var w := s.worker;
    var t := s.Commit(s.Store() - {n});
    if !w.Idle? && Matches(t.Store(), w.name, w.source) {
      SeenAsCommit(s, w.name, w.source, t.Store());
    }
  }

  lemma OthersCommit(s: State, n: string, source: Source)
    requires Inv(s) && n != "" && !Claims(source) && source.version == s.nextVersion && Sane(source, s.nextVersion + 1)
    ensures Inv(s.Commit(s.Store()[n := source]))
  {
    CommitIdentifies(s.stores, n, source, s.nextVersion);
    CommitKeepsClaims(s, n, source);
    OthersKeepWorker(s, n, source);
  }

  lemma RemovalCommit(s: State, n: string)
    requires Inv(s)
    ensures Inv(s.Commit(s.Store() - {n}))
  {
    RemovalIdentifies(s.stores, n);
    RemovalKeepsClaims(s, n);
    RemovalKeepsWorker(s, n);
  }

  /** A change that leaves the subscription and the condition alone. */
  lemma TouchCommit(s: State, n: string)
    requires Inv(s) && n in s.Store()
    ensures Inv(s.Commit(s.Store()[n := s.Store()[n].(version := s.nextVersion)]))
  {
    var source := s.Store()[n].(version := s.nextVersion);
    var t := s.Commit(s.Store()[n := source]);
    assert Sane(s.Store()[n], s.nextVersion);
    CommitIdentifies(s.stores, n, source, s.nextVersion);
    CommitKeepsClaims(s, n, source);
    TouchKeepsWorker(s, n);
  }

  lemma TouchKeepsWorker(s: State, n: string)
    requires Inv(s) && n in s.Store()
    ensures WorkerKnows(s.Commit(s.Store()[n := s.Store()[n].(version := s.nextVersion)]))
  {
    var t := s.Commit(s.Store()[n := s.Store()[n].(version := s.nextVersion)]);
    var w := s.worker;
    if !w.Idle? && Matches(t.Store(), w.name, w.source) {
      assert w.name != n;
      SeenAsCommit(s, w.name, w.source, t.Store());
    }
  }

  lemma OutsideInv(s: State, name: string, step: Outside)
    requires Inv(s) && OutsideEnabled(s, name, step)
    ensures Inv(ApplyOutside(s, name, step))
  {
    var store := s.Store();
    assert name in store ==> Sane(store[name], s.nextVersion) && name != "";
    hide VersionsIdentify, ClaimsHold, WorkerKnows;
    match step
    case Create(spec) => OthersCommit(s, name, Source(s.nextVersion, 1, spec, false, false, None, None));
    case Edit(spec) =>
      OthersCommit(s, name, store[name].(version := s.nextVersion,
                                          generation := store[name].generation + 1, spec := spec));
    case Touch => TouchCommit(s, name);
    case Delete =>
      if !store[name].deleting {
        if store[name].finalizer {
          OthersCommit(s, name, store[name].(version := s.nextVersion,
                                              generation := store[name].generation + 1, deleting := true));
        } else {
          RemovalCommit(s, name);
        }
      }
    case CatchUp => CatchUpInv(s, name);
  }

  lemma CatchUpInv(s: State, name: string)
    requires Inv(s) && OutsideEnabled(s, name, CatchUp)
    ensures Inv(ApplyOutside(s, name, CatchUp))
  {
    var t := ApplyOutside(s, name, CatchUp);
    forall m | m in t.Store() && Claims(t.Store()[m])
      ensures SeenAs(t, m, t.Store()[m]) && Covered(t, t.Store()[m])
    {
      assert SeenAs(s, m, s.Store()[m]);
    }
    var w := s.worker;
    if !w.Idle? && Matches(s.Store(), w.name, w.source) {
      assert SeenAs(s, w.name, w.source);
    }
  }

  // --- what the worker does ---

  lemma GetInv(s: State, name: string)
    requires Inv(s) && s.worker.Idle?
    ensures Inv(ApplyInside(s, Get(name)))
  {
    if name in s.Cache() {
      var source := s.Cache()[name];
      assert Sane(source, s.nextVersion);
      if Matches(s.Store(), name, source) {
        CurrentIsCached(s, name);
      }
      if name in s.Store() && Claims(s.Store()[name]) {
        ClaimSeenAlive(s, name);
      }
      assert WorkerKnows(s.(worker := Fetched(name, source)));
    }
  }

  /** A cached object with the current version is the current one, and has not
      changed since. */
  lemma CurrentIsCached(s: State, name: string)
    requires Inv(s) && name in s.Cache() && Matches(s.Store(), name, s.Cache()[name])
    ensures s.Store()[name] == s.Cache()[name] && SeenAs(s, name, s.Cache()[name])
  {
    assert KeptSince(s.stores, s.seen, name);
  }

  lemma ClaimSeenAlive(s: State, name: string)
    requires Inv(s) && name in s.Store() && Claims(s.Store()[name])
    ensures name in s.Cache() && !s.Cache()[name].deleting
  {
    assert SeenAs(s, name, s.Store()[name]);
    assert name in s.stores[s.seen] && SameSubscription(s.stores[s.seen][name], s.Store()[name]);
  }

  /** A write of the worker that reaches a matching object, and sets no claim
      that does not hold. */
  lemma WorkerCommit(s: State, source: Source)
    requires Inv(s) && !s.worker.Idle? && Matches(s.Store(), s.worker.name, s.worker.source)
    requires SameSubscription(source, s.worker.source) && Sane(source, s.nextVersion + 1)
    requires source.version == s.nextVersion
    requires Claims(source) ==> Covered(s, source)
    ensures Inv(s.Commit(s.Store()[s.worker.name := source]).(worker := Idle))
    ensures SeenAs(s.Commit(s.Store()[s.worker.name := source]), s.worker.name, source)
  {
    var w := s.worker;
    assert SeenAs(s, w.name, source);
    assert w.name in s.stores[|s.stores| - 1] && w.name != "";
    CommitWellFormed(s, w.name, source);
    CommitIdentifies(s.stores, w.name, source, s.nextVersion);
    CommitKeepsClaims(s, w.name, source);
    SeenAsCommit(s, w.name, source, s.Store()[w.name := source]);
  }

  lemma CommitWellFormed(s: State, n: string, source: Source)
    requires WellFormed(s) && n != "" && Sane(source, s.nextVersion + 1)
    ensures WellFormed(s.Commit(s.Store()[n := source]))
  {
    var t := s.Commit(s.Store()[n := source]);
    forall i, m | 0 <= i < |t.stores| && m in t.stores[i]
      ensures Sane(t.stores[i][m], t.nextVersion) && m != ""
    {
      if i == |s.stores| {
        assert m == n || m in s.stores[|s.stores| - 1];
      } else {
        assert m in s.stores[i];
      }
    }
  }

  lemma WriteInv(s: State, source: Source, reaches: bool)
    requires Inv(s) && !s.worker.Idle? && source.version == s.worker.source.version
    requires SameSubscription(source, s.worker.source) && Sane(source, s.nextVersion)
    requires Claims(source) && Matches(s.Store(), s.worker.name, s.worker.source) ==> Covered(s, source)
    ensures Inv(Write(s, s.worker.name, source, reaches).(worker := Idle))
  {
    var w := s.worker;
    if reaches && Matches(s.Store(), w.name, w.source) && s.Store()[w.name] != source {
      WorkerCommit(s, source.(version := s.nextVersion));
    }
  }

  /** An unclaimed source in memory stays unclaimed; a claimed one was covered. */
  lemma FetchedClaim(s: State)
    requires Inv(s) && !s.worker.Idle? && Matches(s.Store(), s.worker.name, s.worker.source)
    requires Claims(s.worker.source)
    ensures Covered(s, s.worker.source)
  {
    var store := s.Store();
    assert Claims(store[s.worker.name]);
  }

  lemma ResolvedInv(s: State, reaches: bool)
    requires Inv(s) && InsideEnabled(s, Resolved(reaches))
    ensures Inv(ApplyInside(s, Resolved(reaches)))
  {
    var w := s.worker;
    var source := w.source.(credentials := Some(Condition(true, w.source.generation)));
    if reaches && Matches(s.Store(), w.name, source) && s.Store()[w.name] != source {
      if Claims(source) { FetchedClaim(s); }
      ResolvedCommit(s, source.(version := s.nextVersion));
    } else {
      assert WorkerKnows(s.(worker := Listing(w.name, source)));
    }
  }

  lemma ResolvedCommit(s: State, source: Source)
    requires Inv(s) && s.worker.Fetched? && !s.worker.source.deleting
    requires Matches(s.Store(), s.worker.name, s.worker.source)
    requires source == s.worker.source.(credentials := source.credentials, version := s.nextVersion)
    requires Claims(source) ==> Covered(s, source)
    ensures Inv(s.Commit(s.Store()[s.worker.name := source]).(worker := Listing(s.worker.name, source)))
  {
    WorkerCommit(s, source);
    var name := s.worker.name;
    var t := s.Commit(s.Store()[name := source]).(worker := Idle);
    assert SeenAs(t, name, source);
    assert WorkerKnows(t.(worker := Listing(name, source)));
  }

  lemma ListInv(s: State, ok: bool)
    requires Inv(s) && InsideEnabled(s, List(ok))
    ensures Inv(ApplyInside(s, List(ok)))
  {
    CacheCoversClaims(s, s.worker.source.spec.obc, "");
    if Matches(s.Store(), s.worker.name, s.worker.source) {
      assert s.worker.name in s.stores[s.seen];
    }
  }

  /** The cached list includes the patterns of every source that claims anything. */
  lemma CacheCoversClaims(s: State, obc: string, excluded: string)
    requires Inv(s)
    requires excluded in s.Store() ==> !Claims(s.Store()[excluded])
    ensures MergedCoversClaims(s, obc, Merged(s.Cache(), obc, excluded))
  {
    forall n, e | n in s.Store() && Claims(s.Store()[n]) && s.Store()[n].spec.obc == obc
                    && e in s.Store()[n].spec.events
      ensures e in Merged(s.Cache(), obc, excluded)
    {
      assert SeenAs(s, n, s.Store()[n]);
      assert n in s.stores[s.seen] && SameSubscription(s.stores[s.seen][n], s.Store()[n]);
    }
  }

  lemma PutKeepsClaims(s: State, obc: string, merged: set<string>)
    requires s.stores != [] && ClaimsHold(s) && MergedCoversClaims(s, obc, merged)
    ensures ClaimsHold(s.(buckets := s.buckets[obc := merged]))
  {
    var t := s.(buckets := s.buckets[obc := merged]);
    forall n | n in t.Store() && Claims(t.Store()[n])
      ensures SeenAs(t, n, t.Store()[n]) && Covered(t, t.Store()[n])
    {
      assert SeenAs(s, n, s.Store()[n]) && Covered(s, s.Store()[n]);
    }
  }

  lemma PutInv(s: State, applied: bool, ok: bool)
    requires Inv(s) && InsideEnabled(s, Put(applied, ok))
    ensures Inv(ApplyInside(s, Put(applied, ok)))
  {
    PutKeepsClaims(s, s.worker.source.spec.obc, s.worker.merged);
  }

  lemma MarkInv(s: State, reaches: bool)
    requires Inv(s) && InsideEnabled(s, Mark(reaches))
    ensures Inv(ApplyInside(s, Mark(reaches)))
  {
    var w := s.worker;
    WriteInv(s, w.source.(notificationSet := Some(Condition(w.ok, w.source.generation))), reaches);
  }

  /** A write of the worker that leaves the condition alone. */
  lemma PrepareInv(s: State, source: Source, reaches: bool)
    requires Inv(s) && s.worker.Fetched?
    requires source == s.worker.source.(finalizer := source.finalizer, credentials := source.credentials)
    ensures Inv(Write(s, s.worker.name, source, reaches).(worker := Idle))
  {
    if Claims(source) && Matches(s.Store(), s.worker.name, s.worker.source) {
      FetchedClaim(s);
    }
    WriteInv(s, source, reaches);
  }

  lemma FinalizeInv(s: State, step: Inside)
    requires Inv(s) && InsideEnabled(s, step)
    requires step.SkipBucket? || step.ListRemaining? || step.PutRemaining?
    ensures Inv(ApplyInside(s, step))
  {
    var w := s.worker;
    match step
    case SkipBucket =>
    case ListRemaining => CacheCoversClaims(s, w.source.spec.obc, w.name);
    case PutRemaining(applied) => PutKeepsClaims(s, w.source.spec.obc, w.merged);
  }

  lemma RemoveFinalizerInv(s: State, reaches: bool)
    requires Inv(s) && InsideEnabled(s, RemoveFinalizer(reaches))
    ensures Inv(ApplyInside(s, RemoveFinalizer(reaches)))
  {
    RemovalCommit(s, s.worker.name);
  }

  lemma InsideInv(s: State, step: Inside)
    requires Inv(s) && InsideEnabled(s, step)
    ensures Inv(ApplyInside(s, step))
  {
    var w := s.worker;
    match step
    case Get(name) => GetInv(s, name);
    case AddFinalizer(reaches) => PrepareInv(s, w.source.(finalizer := true), reaches);
    case Unresolved(reaches) =>
      PrepareInv(s, w.source.(credentials := Some(Condition(false, w.source.generation))), reaches);
    case Resolved(reaches) => ResolvedInv(s, reaches);
    case List(ok) => ListInv(s, ok);
    case Put(applied, ok) => PutInv(s, applied, ok);
    case Mark(reaches) => MarkInv(s, reaches);
    case RemoveFinalizer(reaches) => RemoveFinalizerInv(s, reaches);
    case _ => FinalizeInv(s, step);
  }

  lemma {:induction false} RunInv(s: State, actions: seq<Action>, t: State)
    requires Inv(s) && Run(s, actions, t)
    ensures Inv(t)
    decreases |actions|
  {
    if actions != [] {
      match actions[0] {
        case Others(name, step) => OutsideInv(s, name, step);
        case Work(step) => InsideInv(s, step);
      }
      RunInv(Apply(s, actions[0]), actions[1..], t);
    }
  }

  lemma ReachableInv(s: State)
    requires Reachable(s)
    ensures Inv(s)
  {
    var s0: State, actions: seq<Action> :| Init(s0) && Run(s0, actions, s);
    RunInv(s0, actions, s);
  }

  // --- what the controller guarantees ---

  /** In every reachable state, a live source whose BucketNotificationSet is True
      for its current generation has all its patterns in the bucket's
      configuration, whatever happens to other sources and however far the cache
      lags behind. */
  lemma Coverage(s: State, name: string)
    requires Reachable(s) && s.stores != []
    requires name in s.Store() && Claims(s.Store()[name])
    ensures forall e :: e in s.Store()[name].spec.events ==> e in s.Configured(s.Store()[name].spec.obc)
  {
    ReachableInv(s);
  }

  /** A successful put right after a list from an up-to-date cache leaves the
      bucket with exactly the patterns of the live sources. */
  lemma FreshPutIsExact(s: State, e: string)
    requires Reachable(s) && s.worker.Listing? && s.stores != [] && s.seen == |s.stores| - 1
    ensures var t := ApplyInside(ApplyInside(s, List(true)), Put(true, true));
            e in t.Configured(s.worker.source.spec.obc) <==>
            exists n :: n in s.Store() && !s.Store()[n].deleting
                        && s.Store()[n].spec.obc == s.worker.source.spec.obc && e in s.Store()[n].spec.events
  {
    ReachableInv(s);
  }

  /** The same when a source is deleted: what remains is exactly the patterns of the
      other live sources. */
  lemma FreshRemovalIsExact(s: State, e: string)
    requires Reachable(s) && InsideEnabled(s, ListRemaining) && s.stores != [] && s.seen == |s.stores| - 1
    ensures var t := ApplyInside(ApplyInside(s, ListRemaining), PutRemaining(true));
            e in t.Configured(s.worker.source.spec.obc) <==>
            exists n :: n in s.Store() && n != s.worker.name && !s.Store()[n].deleting
                        && s.Store()[n].spec.obc == s.worker.source.spec.obc && e in s.Store()[n].spec.events
  {
    ReachableInv(s);
  }

  lemma {:induction false} RunAppend(s: State, first: seq<Action>, m: State, second: seq<Action>, t: State)
    requires Run(s, first, m) && Run(m, second, t)
    ensures Run(s, first + second, t)
    decreases |first|
  {
    if first == [] {
      assert first + second == second;
    } else {
      RunAppend(Apply(s, first[0]), first[1..], m, second, t);
      assert (first + second)[1..] == first[1..] + second;
    }
  }

  lemma ReachableStep(s: State, a: Action) returns (t: State)
    requires Reachable(s) && s.seen < |s.stores| && Enabled(s, a)
    ensures t == Apply(s, a) && Reachable(t)
  {
    t := Apply(s, a);
    var s0: State, actions: seq<Action> :| Init(s0) && Run(s0, actions, s);
    assert Run(s, [a], t);
    RunAppend(s0, actions, s, [a], t);
  }

  lemma ReachFinalizer(name: string, spec: Spec) returns (s: State)
    requires name != ""
    ensures Reachable(s) && s.worker.Idle? && s.seen == |s.stores| - 1 && name in s.Store()
    ensures s.Store()[name] == Source(1, 1, spec, true, false, None, None) && s.nextVersion == 2
  {
    s := State([map[]], 0, 0, map[], Idle);
    assert Init(s) && Run(s, [], s);
    s := ReachableStep(s, Others(name, Create(spec)));
    s := ReachableStep(s, Others(name, CatchUp));
    s := ReachableStep(s, Work(Get(name)));
    s := ReachableStep(s, Work(AddFinalizer(true)));
    s := ReachableStep(s, Others(name, CatchUp));
  }

  /** Every source can get to make its claim. */
  lemma ClaimIsReachable(name: string, spec: Spec) returns (s: State)
    requires name != ""
    ensures Reachable(s) && s.stores != [] && name in s.Store()
    ensures Claims(s.Store()[name]) && s.Store()[name].spec == spec
  {
    s := ReachFinalizer(name, spec);
    s := ReachableStep(s, Work(Get(name)));
    s := ReachableStep(s, Work(Resolved(true)));
    s := ReachableStep(s, Work(List(true)));
    s := ReachableStep(s, Work(Put(true, true)));
    s := ReachableStep(s, Work(Mark(true)));
  }

  // --- a reconcile that nothing disturbs ---

  lemma Then(s: State, actions: seq<Action>, m: State, step: Inside) returns (all: seq<Action>, t: State)
    requires Run(s, actions, m) && m.seen < |m.stores| && InsideEnabled(m, step)
    ensures t == ApplyInside(m, step) && Run(s, all, t)
    ensures all == actions + [Work(step)]
  {
    t := ApplyInside(m, step);
    assert Apply(m, Work(step)) == t && [Work(step)][1..] == [];
    assert Run(m, [Work(step)], t);
    RunAppend(s, actions, m, [Work(step)], t);
    all := actions + [Work(step)];
  }

  /** These are all the patterns of the live sources of the claim, and no others. */
  ghost predicate Exactly(patterns: set<string>, sources: Store, obc: string) {
    forall e :: e in patterns <==>
                exists n :: n in sources && !sources[n].deleting && sources[n].spec.obc == obc
                            && e in sources[n].spec.events
  }

  lemma MergedExactly(sources: Store, obc: string, excluded: string)
    ensures Exactly(Merged(sources, obc, excluded), sources - {excluded}, obc)
  {
    var rest := sources - {excluded};
    forall e
      ensures e in Merged(sources, obc, excluded) <==>
              exists n :: n in rest && !rest[n].deleting && rest[n].spec.obc == obc && e in rest[n].spec.events
    {
      if n :| n in rest && !rest[n].deleting && rest[n].spec.obc == obc && e in rest[n].spec.events {
        assert n in sources && n != excluded;
      }
      if e in Merged(sources, obc, excluded) {
        var n :| n in sources && n != excluded && sources[n].spec.obc == obc && !sources[n].deleting
                 && e in sources[n].spec.events;
        assert n in rest;
      }
    }
  }

  /** The worker can turn to this source, and sees it as it is. */
  predicate ReadyFor(s: State, name: string) {
    s.worker.Idle? && s.stores != [] && s.seen == |s.stores| - 1 && name in s.Store()
  }

  /** Users may do anything at any time: create a source under a free name, edit a
      source, which voids what it claims, and delete one, which is gone at once if there
      is no finalizer yet. */
  lemma UsersAreFree(s: State, name: string, spec: Spec)
    requires Reachable(s) && s.stores != [] && name != ""
    ensures name !in s.Store() ==>
              && OutsideEnabled(s, name, Create(spec))
              && ApplyOutside(s, name, Create(spec)).Store() ==
                 s.Store()[name := Source(s.nextVersion, 1, spec, false, false, None, None)]
    ensures name in s.Store() ==>
              && OutsideEnabled(s, name, Edit(spec)) && OutsideEnabled(s, name, Delete)
              && var edited := ApplyOutside(s, name, Edit(spec)).Store()[name];
                 edited.spec == spec && edited.generation > s.Store()[name].generation && !Claims(edited)
    ensures name in s.Store() && !s.Store()[name].deleting ==>
              var t := ApplyOutside(s, name, Delete);
              if s.Store()[name].finalizer then name in t.Store() && t.Store()[name].deleting
              else t.Store() == s.Store() - {name}
  {
    ReachableInv(s);
    assert name in s.Store() ==> Sane(s.Store()[name], s.nextVersion);
  }

  /** Users can delete every source, and then there is a finalizer that keeps it. */
  lemma DeletionIsReachable(name: string, spec: Spec) returns (s: State)
    requires name != ""
    ensures Reachable(s) && ReadyFor(s, name)
    ensures s.Store()[name].deleting && s.Store()[name].finalizer && s.Store()[name].spec == spec
  {
    s := ReachFinalizer(name, spec);
    s := ReachableStep(s, Others(name, Delete));
    s := ReachableStep(s, Others(name, CatchUp));
  }

  /** A deleted source that the worker turns to goes away, and leaves the bucket with
      exactly the patterns of the other live sources. */
  lemma DeletionCompletes(s: State, name: string) returns (actions: seq<Action>, t: State)
    requires ReadyFor(s, name)
    requires s.Store()[name].deleting && s.Store()[name].finalizer
    ensures actions == [Work(Get(name)), Work(ListRemaining), Work(PutRemaining(true)), Work(RemoveFinalizer(true))]
    ensures Run(s, actions, t) && t.worker.Idle? && t.stores != [] && t.Store() == s.Store() - {name}
    ensures Exactly(t.Configured(s.Store()[name].spec.obc), t.Store(), s.Store()[name].spec.obc)
  {
    hide Exactly, Merged;
    MergedExactly(s.Store(), s.Store()[name].spec.obc, name);
    assert Run(s, [], s);
    actions, t := Then(s, [], s, Get(name));
    actions, t := Then(s, actions, t, ListRemaining);
    actions, t := Then(s, actions, t, PutRemaining(true));
    actions, t := Then(s, actions, t, RemoveFinalizer(true));
  }

  /** It goes away as well if the bucket cannot be dealt with, which is then left as it
      was. */
  lemma DeletionCompletesAnyway(s: State, name: string) returns (actions: seq<Action>, t: State)
    requires ReadyFor(s, name)
    requires s.Store()[name].deleting && s.Store()[name].finalizer
    ensures actions == [Work(Get(name)), Work(SkipBucket), Work(RemoveFinalizer(true))]
    ensures Run(s, actions, t) && t.worker.Idle? && t.stores != [] && t.Store() == s.Store() - {name}
    ensures t.buckets == s.buckets
  {
    assert Run(s, [], s);
    actions, t := Then(s, [], s, Get(name));
    actions, t := Then(s, actions, t, SkipBucket);
    actions, t := Then(s, actions, t, RemoveFinalizer(true));
  }

  /** A source that the worker turns to for the first time gets its finalizer. */
  lemma FinalizerComesFirst(s: State, name: string) returns (actions: seq<Action>, t: State)
    requires ReadyFor(s, name)
    requires !s.Store()[name].deleting && !s.Store()[name].finalizer
    ensures actions == [Work(Get(name)), Work(AddFinalizer(true))]
    ensures Run(s, actions, t) && t.worker.Idle? && t.stores != [] && name in t.Store()
    ensures t.Store() == s.Store()[name := s.Store()[name].(finalizer := true, version := t.Store()[name].version)]
    ensures t.buckets == s.buckets
  {
    assert Run(s, [], s);
    actions, t := Then(s, [], s, Get(name));
    actions, t := Then(s, actions, t, AddFinalizer(true));
  }

  lemma NoEmptyName(s: State)
    requires Reachable(s) && s.stores != []
    ensures s.Store() - {""} == s.Store()
  {
    ReachableInv(s);
  }

  /** A live source that the worker turns to ends up saying for its current generation
      how the put went. If that went well the bucket holds exactly the patterns of the
      live sources. */
  lemma SubscriptionCompletes(s: State, name: string, applied: bool, ok: bool) returns (actions: seq<Action>, t: State)
    requires Reachable(s) && ReadyFor(s, name) && (ok ==> applied)
    requires !s.Store()[name].deleting && s.Store()[name].finalizer
    ensures actions ==
            [Work(Get(name)), Work(Resolved(true)), Work(List(true)), Work(Put(applied, ok)), Work(Mark(true))]
    ensures Run(s, actions, t) && t.worker.Idle? && t.stores != [] && name in t.Store()
    ensures t.Store()[name].spec == s.Store()[name].spec && !t.Store()[name].deleting
    ensures t.Store()[name].generation == s.Store()[name].generation
    ensures t.Store()[name].notificationSet == Some(Condition(ok, s.Store()[name].generation))
    ensures t.Store()[name].credentials == Some(Condition(true, s.Store()[name].generation))
    ensures !applied ==> t.buckets == s.buckets
    ensures applied ==> Exactly(t.Configured(s.Store()[name].spec.obc), s.Store(), s.Store()[name].spec.obc)
  {
    hide Exactly, Merged, Reachable;
    NoEmptyName(s);
    MergedExactly(s.Store(), s.Store()[name].spec.obc, "");
    assert Run(s, [], s);
    hide Run;
    actions, t := Then(s, [], s, Get(name));
    actions, t := Then(s, actions, t, Resolved(true));
    actions, t := Then(s, actions, t, List(true));
    actions, t := Then(s, actions, t, Put(applied, ok));
    actions, t := Then(s, actions, t, Mark(true));
  }

  /** If the claim is not ready yet the source says that too, and keeps what it said
      about the bucket. */
  lemma UnreadyClaimIsReported(s: State, name: string) returns (actions: seq<Action>, t: State)
    requires ReadyFor(s, name)
    requires !s.Store()[name].deleting && s.Store()[name].finalizer
    ensures actions == [Work(Get(name)), Work(Unresolved(true))]
    ensures Run(s, actions, t) && t.worker.Idle? && t.stores != [] && name in t.Store() && t.buckets == s.buckets
    ensures t.Store()[name] == s.Store()[name].(credentials := Some(Condition(false, s.Store()[name].generation)),
                                                version := t.Store()[name].version)
  {
    assert Run(s, [], s);
    actions, t := Then(s, [], s, Get(name));
    actions, t := Then(s, actions, t, Unresolved(true));
  }

  /** An event on a bucket in state `s`. */
  datatype Occurrence = Occurrence(state: State, record: Record)

  function EmissionOf(o: Occurrence): Emission {
    Emission(o.record, o.state.Configured(o.record.bucket))
  }

  /** End to end: as long as a source makes its claim, it receives exactly what a
      private subscription would give it, in order and once each, over any
      sequence of events, states in which they occur, and notifications that
      carry them. */
  lemma ClaimedSourceMissesNothing(name: string, spec: Spec, events: seq<Occurrence>, batches: seq<seq<Record>>)
    requires forall i :: 0 <= i < |events| ==>
               var s := events[i].state;
               Reachable(s) && s.stores != [] && name in s.Store() && Claims(s.Store()[name])
               && s.Store()[name].spec == spec
    requires Concat(batches) == Notified(Map(EmissionOf, events))
    ensures Received(spec, batches) == Selected(spec, Map(RecordOf, Map(EmissionOf, events)))
  {
    var stream := Map(EmissionOf, events);
    forall i | 0 <= i < |stream| ensures CoveredAt(spec, stream[i]) {
      Coverage(events[i].state, name);
    }
    MergeThenFilter(spec, stream, batches);
  }
}
