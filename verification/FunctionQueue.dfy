/** How one Function gets into the work queue, by its own writes and by those of
    others. Every write reaches the operator's cache with a delay, and from there,
    again with a delay, the predicates of the watch. Functions do not affect each
    other's place in the queue. */
module FunctionQueue {
  /** A version of the object: whether it changed the specification, and whether it
      carries an annotation with the functions prefix. */
  datatype Version = Version(generationChanged: bool, annotated: bool)

  const ANNOTATED := Version(false, true)
  const BARE := Version(false, false)

  /** The predicates of the watch: the generation changed, or the new object is
      annotated. */
  predicate Passes(v: Version) {
    v.generationChanged || v.annotated
  }

  /** Where a reconcile is: it may flush the status once, removes the annotations,
      and flushes the status at the end. The final flush always has something to
      write, since each reconcile gives the conditions new transition times. */
  datatype Phase = Idle | Working | Flushed | Removed

  /** `cached` says whether the cached copy is annotated. `lag` holds the versions
      that have not reached the cache, `events` those that have reached it but not
      the predicates. `dirty` means queued, or to be queued when the reconcile is
      done. `unread` means that there is a specification, and `unseen` that there is
      an operator's ConfigMap, that no reconcile started so far can have read. */
  datatype State = State(
    annotated: bool,
    cached: bool,
    lag: seq<Version>,
    events: seq<Version>,
    dirty: bool,
    phase: Phase,
    unread: bool,
    unseen: bool)

  datatype Action =
    | Annotate | Unannotate | EditSpec | ConfigChanged   // by others
    | Fail(changed: bool)       // the reconcile fails, flushes the status if it can, and is queued again
    | Deliver | Handle
    | Start | MidFlush(changed: bool) | Remove | FinalFlush

  /** A write needs the current version, that is, a cache that does not lag. */
  predicate Enabled(s: State, a: Action) {
    match a
    case Annotate => true
    case Unannotate => true
    case EditSpec => true
    case ConfigChanged => true
    case Fail(changed) => s.phase != Idle && (changed ==> s.lag == [])
    case Deliver => s.lag != []
    case Handle => s.events != []
    case Start => s.dirty && s.phase == Idle
    case MidFlush(changed) => s.phase == Working && (changed ==> s.lag == [])
    case Remove => s.phase == Flushed && (s.cached ==> s.lag == [])
    case FinalFlush => s.phase == Removed && s.lag == []
  }

  /** Some version changed the specification. */
  predicate Edits(versions: seq<Version>) {
    exists i :: 0 <= i < |versions| && versions[i].generationChanged
  }

  function Write(s: State, v: Version): State {
    s.(annotated := v.annotated, lag := s.lag + [v])
  }

  function Apply(s: State, a: Action): State
    requires Enabled(s, a)
  {
    match a
    case Annotate => Write(s, ANNOTATED)
    case Unannotate => Write(s, BARE)
    case EditSpec => Write(s, Version(true, s.annotated)).(unread := true)
    case ConfigChanged => s.(dirty := true, unseen := true)
    case Fail(changed) => (if changed then Write(s, Version(false, s.annotated)) else s).(dirty := true, phase := Idle)
    case Deliver => s.(cached := s.lag[0].annotated, lag := s.lag[1..], events := s.events + [s.lag[0]])
    case Handle => s.(dirty := s.dirty || Passes(s.events[0]), events := s.events[1..])
    case Start => s.(dirty := false, phase := Working, unread := s.unread && Edits(s.lag), unseen := false)
    case MidFlush(changed) => (if changed then Write(s, Version(false, s.annotated)) else s).(phase := Flushed)
    case Remove => (if s.cached then Write(s, BARE) else s).(phase := Removed)
    case FinalFlush => Write(s, Version(false, s.annotated)).(phase := Idle)
  }

  ghost predicate Run(s: State, actions: seq<Action>, t: State)
    decreases |actions|
  {
    if actions == [] then s == t
    else Enabled(s, actions[0]) && Run(Apply(s, actions[0]), actions[1..], t)
  }

  // --- how many reconciles are still to come ---

  function Passing(versions: seq<Version>): nat {
    if versions == [] then 0
    else Passing(versions[..|versions| - 1]) + if Passes(versions[|versions| - 1]) then 1 else 0
  }

  lemma PassingSnoc(versions: seq<Version>, v: Version)
    ensures Passing(versions + [v]) == Passing(versions) + if Passes(v) then 1 else 0
  {
    assert (versions + [v])[..|versions|] == versions;
  }

  lemma {:induction false} PassingTail(versions: seq<Version>)
    requires versions != []
    ensures Passing(versions) == Passing(versions[1..]) + if Passes(versions[0]) then 1 else 0
  {
    var n := |versions| - 1;
    if n > 0 {
      PassingTail(versions[..n]);
      assert versions[..n][1..] == versions[1..][..n - 1];
    }
  }

  /** A reconcile may yet read a copy that is not annotated. */
  predicate MayMiss(cached: bool, lag: seq<Version>) {
    !cached || exists i :: 0 <= i < |lag| && !lag[i].annotated
  }

  /** The flushes that may yet be made while the object is annotated. */
  function Exposed(annotated: bool, phase: Phase, mayMiss: bool): nat {
    if !annotated then 0
    else if phase == Removed || mayMiss then 2
    else if phase == Flushed then 0
    else 1
  }

  /** The reconciles that what has reached the cache asks for. */
  function Units(s: State): nat {
    (if s.dirty then 1 else 0) + Passing(s.events)
  }

  function Potential(s: State): nat {
    Units(s) + Passing(s.lag) + Exposed(s.annotated, s.phase, MayMiss(s.cached, s.lag))
  }

  /** What an action of others, or a failure, may add. */
  function Credit(a: Action): nat {
    match a
    case Annotate => 3
    case EditSpec => 1
    case ConfigChanged => 1
    case Fail(changed) => if changed then 3 else 2
    case _ => 0
  }

  function Credits(actions: seq<Action>): nat {
    if actions == [] then 0 else Credit(actions[0]) + Credits(actions[1..])
  }

  function Starts(actions: seq<Action>): nat {
    if actions == [] then 0 else (if actions[0] == Start then 1 else 0) + Starts(actions[1..])
  }

  /** The server's copy is the last version written. */
  predicate Tracks(s: State) {
    s.annotated == if s.lag == [] then s.cached else s.lag[|s.lag| - 1].annotated
  }

  lemma TracksStep(s: State, a: Action)
    requires Tracks(s) && Enabled(s, a)
    ensures Tracks(Apply(s, a))
  {
  }

  lemma MayMissSnoc(cached: bool, lag: seq<Version>, v: Version)
    ensures MayMiss(cached, lag + [v]) <==> MayMiss(cached, lag) || !v.annotated
  {
    var longer := lag + [v];
    assert longer[|lag|] == v;
    if i :| 0 <= i < |lag| && !lag[i].annotated {
      assert !longer[i].annotated;
    }
  }

  lemma DeliverPotential(s: State)
    requires s.lag != []
    ensures Potential(Apply(s, Deliver)) <= Potential(s)
  {
    var t := Apply(s, Deliver);
    PassingTail(s.lag);
    PassingSnoc(s.events, s.lag[0]);
    if i :| 0 <= i < |t.lag| && !t.lag[i].annotated {
      assert !s.lag[i + 1].annotated;
    }
  }

  lemma HandlePotential(s: State)
    requires s.events != []
    ensures Potential(Apply(s, Handle)) <= Potential(s)
  {
    PassingTail(s.events);
  }

  lemma OthersPotential(s: State, a: Action)
    requires Enabled(s, a) && !ByOperator(a)
    ensures Potential(Apply(s, a)) <= Potential(s) + Credit(a)
  {
    hide MayMiss, Edits, Passing;
    match a
    case Annotate => PassingSnoc(s.lag, ANNOTATED);
    case Unannotate => PassingSnoc(s.lag, BARE);
    case EditSpec =>
      PassingSnoc(s.lag, Version(true, s.annotated));
      MayMissSnoc(s.cached, s.lag, Version(true, s.annotated));
    case ConfigChanged =>
    case Fail(_) => FailPotential(s, a);
  }

  lemma FailPotential(s: State, a: Action)
    requires Enabled(s, a) && a.Fail?
    ensures Potential(Apply(s, a)) <= Potential(s) + Credit(a)
  {
    hide Edits, Passing;
    PassingSnoc(s.lag, Version(false, s.annotated));
    MayMissSnoc(s.cached, s.lag, Version(false, s.annotated));
  }

  lemma FlushPotential(s: State, a: Action)
    requires Tracks(s) && Enabled(s, a) && (a == MidFlush(true) || a == FinalFlush)
    ensures Potential(Apply(s, a)) <= Potential(s)
  {
    var v := Version(false, s.annotated);
    var t := Apply(s, a);
    assert t.lag == s.lag + [v];
    PassingSnoc(s.lag, v);
    MayMissSnoc(s.cached, s.lag, v);
  }

  lemma RemovePotential(s: State)
    requires Enabled(s, Remove)
    ensures Potential(Apply(s, Remove)) <= Potential(s)
  {
    PassingSnoc(s.lag, BARE);
  }

  lemma PotentialStep(s: State, a: Action)
    requires Tracks(s) && Enabled(s, a)
    ensures Potential(Apply(s, a)) + (if a == Start then 1 else 0) <= Potential(s) + Credit(a)
  {
    match a
    case Deliver => DeliverPotential(s);
    case Handle => HandlePotential(s);
    case Start =>
    case MidFlush(changed) =>
      if changed {
        FlushPotential(s, a);
      }
    case Remove => RemovePotential(s);
    case FinalFlush => FlushPotential(s, a);
    case _ => OthersPotential(s, a);
  }

  /** In any run, with any edits and failures in between, there are no more
      reconciles than were pending plus what the edits and failures account for. */
  lemma {:induction false} StartsBounded(s: State, actions: seq<Action>, t: State)
    requires Tracks(s) && Run(s, actions, t)
    ensures Starts(actions) + Potential(t) <= Potential(s) + Credits(actions)
    decreases |actions|
  {
    if actions != [] {
      PotentialStep(s, actions[0]);
      TracksStep(s, actions[0]);
      StartsBounded(Apply(s, actions[0]), actions[1..], t);
    }
  }

  predicate ByOperator(a: Action) {
    !(a.Annotate? || a.Unannotate? || a.EditSpec? || a.ConfigChanged? || a.Fail?)
  }

  ghost predicate AllByOperator(actions: seq<Action>) {
    forall i :: 0 <= i < |actions| ==> ByOperator(actions[i])
  }

  lemma {:induction false} NoCredits(actions: seq<Action>)
    requires AllByOperator(actions)
    ensures Credits(actions) == 0
  {
    if actions != [] {
      assert ByOperator(actions[0]);
      NoCredits(actions[1..]);
    }
  }

  /** Left alone, the operator makes no more reconciles than are pending. */
  lemma AloneBounded(s: State, actions: seq<Action>, t: State)
    requires Tracks(s) && Run(s, actions, t) && AllByOperator(actions)
    ensures Starts(actions) <= Potential(s)
  {
    StartsBounded(s, actions, t);
    NoCredits(actions);
  }

  // --- what an annotation costs ---

  /** The operator alone may make this many reconciles. */
  ghost predicate CanStart(s: State, n: nat) {
    exists actions, t :: Makes(s, actions, t, n)
  }

  ghost predicate Makes(s: State, actions: seq<Action>, t: State, n: nat) {
    Run(s, actions, t) && AllByOperator(actions) && Starts(actions) >= n
  }

  lemma CanRest(s: State)
    ensures CanStart(s, 0)
  {
    assert Makes(s, [], s, 0);
  }

  lemma Prepend(s: State, a: Action, n: nat)
    requires Enabled(s, a) && ByOperator(a) && CanStart(Apply(s, a), n)
    ensures CanStart(s, if a == Start then n + 1 else n)
  {
    var actions, t :| Makes(Apply(s, a), actions, t, n);
    var all := [a] + actions;
    assert all[1..] == actions;
    assert Makes(s, all, t, if a == Start then n + 1 else n);
  }

  /** A reconcile has been started that reads everything. */
  function Begun(s: State): State {
    s.(dirty := false, unread := false, unseen := false)
  }

  /** A whole reconcile of a Function that is not annotated. */
  lemma PlainReconcile(s: State, n: nat)
    requires s.phase == Idle && !s.annotated && !s.cached && s.lag == [] && s.dirty
    requires CanStart(Begun(s).(events := s.events + [BARE]), n)
    ensures CanStart(s, n + 1)
  {
    var working := Begun(s).(phase := Working);
    var flushed := Begun(s).(phase := Flushed);
    var removed := Begun(s).(phase := Removed);
    var written := Begun(s).(lag := [BARE]);
    assert s.lag + [BARE] == [BARE];
    assert Apply(written, Deliver) == Begun(s).(events := s.events + [BARE]);
    Prepend(written, Deliver, n);
    Prepend(removed, FinalFlush, n);
    Prepend(flushed, Remove, n);
    Prepend(working, MidFlush(false), n);
    Prepend(s, Start, n);
  }

  /** Handled one per reconcile, every event that passes makes a reconcile. */
  lemma {:induction false} PlainDrain(s: State)
    requires s.phase == Idle && !s.annotated && !s.cached && s.lag == []
    ensures CanStart(s, Units(s))
    decreases Units(s), |s.events|
  {
    if s.dirty {
      PassingSnoc(s.events, BARE);
      PlainDrain(Begun(s).(events := s.events + [BARE]));
      PlainReconcile(s, Units(s) - 1);
    } else if s.events != [] {
      PassingTail(s.events);
      PlainDrain(Apply(s, Handle));
      Prepend(s, Handle, Units(s));
    } else {
      CanRest(s);
    }
  }

  /** A whole redeploying reconcile of an annotated Function: its first flush is
      seen as well. */
  lemma AnnotatedReconcile(s: State, n: nat)
    requires s.phase == Idle && s.annotated && s.cached && s.lag == [] && s.dirty
    requires CanStart(Begun(s).(annotated := false, cached := false,
                                events := s.events + [ANNOTATED] + [BARE] + [BARE]), n)
    ensures CanStart(s, n + 1)
  {
    var seen := s.events + [ANNOTATED];
    var working := Begun(s).(phase := Working);
    var announced := Begun(s).(phase := Flushed, lag := [ANNOTATED]);
    var flushed := Begun(s).(phase := Flushed, events := seen);
    var removed := Begun(s).(annotated := false, phase := Removed, lag := [BARE], events := seen);
    var current := removed.(cached := false, lag := [], events := seen + [BARE]);
    var written := current.(phase := Idle, lag := [BARE]);
    var after := written.(lag := [], events := seen + [BARE] + [BARE]);
    assert s.lag + [ANNOTATED] == [ANNOTATED] && s.lag + [BARE] == [BARE];
    assert Apply(written, Deliver) == after;
    Prepend(written, Deliver, n);
    Prepend(current, FinalFlush, n);
    Prepend(removed, Deliver, n);
    Prepend(flushed, Remove, n);
    assert Apply(announced, Deliver) == flushed;
    Prepend(announced, Deliver, n);
    Prepend(working, MidFlush(true), n);
    Prepend(s, Start, n);
  }

  lemma {:induction false} AnnotatedDrain(s: State)
    requires s.phase == Idle && s.annotated && s.cached && s.lag == [] && Units(s) >= 1
    ensures CanStart(s, Units(s) + 1)
    decreases |s.events|
  {
    if s.dirty {
      var events := s.events + [ANNOTATED] + [BARE] + [BARE];
      PassingSnoc(s.events, ANNOTATED);
      PassingSnoc(s.events + [ANNOTATED], BARE);
      PassingSnoc(s.events + [ANNOTATED] + [BARE], BARE);
      PlainDrain(Begun(s).(annotated := false, cached := false, events := events));
      AnnotatedReconcile(s, Units(s));
    } else {
      PassingTail(s.events);
      AnnotatedDrain(Apply(s, Handle));
      Prepend(s, Handle, Units(s) + 1);
    }
  }

  /** The annotation has been written and nothing else is on its way to the cache,
      which has not seen it yet. */
  predicate JustAnnotated(s: State) {
    s.annotated && !s.cached && s.lag == [ANNOTATED]
  }

  /** A reconcile that missed the annotation flushes it at the end. */
  lemma FromRemoved(s: State)
    requires JustAnnotated(s) && s.phase == Removed
    ensures CanStart(s, Units(s) + 3)
  {
    var seen := s.events + [ANNOTATED];
    var current := s.(cached := true, lag := [], events := seen);
    var written := current.(phase := Idle, lag := [ANNOTATED]);
    var after := current.(phase := Idle, events := seen + [ANNOTATED]);
    PassingSnoc(s.events, ANNOTATED);
    PassingSnoc(seen, ANNOTATED);
    AnnotatedDrain(after);
    hide Passing, Edits, CanStart;
    assert current.lag + [ANNOTATED] == [ANNOTATED];
    assert Apply(written, Deliver) == after;
    Prepend(written, Deliver, Units(s) + 3);
    Prepend(current, FinalFlush, Units(s) + 3);
    Prepend(s, Deliver, Units(s) + 3);
  }

  lemma FromReconcile(s: State)
    requires JustAnnotated(s) && s.phase != Idle
    ensures CanStart(s, Units(s) + 3)
  {
    FromRemoved(s.(phase := Removed));
    if s.phase != Removed {
      Prepend(s.(phase := Flushed), Remove, Units(s) + 3);
    }
    if s.phase == Working {
      Prepend(s, MidFlush(false), Units(s) + 3);
    }
  }

  /** A Function that is queued anyway is reconciled before the annotation is
      seen. */
  lemma {:induction false} FromQueued(s: State)
    requires JustAnnotated(s) && s.phase == Idle && Units(s) >= 1
    ensures CanStart(s, Units(s) + 3)
    decreases |s.events|
  {
    if s.dirty {
      FromReconcile(Apply(s, Start));
      Prepend(s, Start, Units(s) + 2);
    } else {
      PassingTail(s.events);
      FromQueued(Apply(s, Handle));
      Prepend(s, Handle, Units(s) + 3);
    }
  }

  /** First everything written before the annotation reaches the cache. */
  lemma {:induction false} FromLagging(s: State, before: seq<Version>)
    requires s.annotated && s.lag == before + [ANNOTATED]
    requires if before == [] then !s.cached else !before[|before| - 1].annotated
    requires s.phase != Idle || Units(s) + Passing(before) >= 1
    ensures CanStart(s, Units(s) + Passing(before) + 3)
    decreases |before|
  {
    if before == [] {
      if s.phase == Idle {
        FromQueued(s);
      } else {
        FromReconcile(s);
      }
    } else {
      PassingTail(before);
      PassingSnoc(s.events, before[0]);
      assert s.lag[1..] == before[1..] + [ANNOTATED];
      FromLagging(Apply(s, Deliver), before[1..]);
      Prepend(s, Deliver, Units(s) + Passing(before) + 3);
    }
  }

  /** At rest but for versions that pass no predicate, the annotation is seen
      before anything starts. */
  predicate Unseen(s: State, before: seq<Version>) {
    && s.annotated && s.phase == Idle && !s.dirty && Tracks(s)
    && s.events + s.lag == before + [ANNOTATED] && Passing(before) == 0
  }

  lemma {:induction false} FromRestAtMostTwo(s: State, before: seq<Version>, actions: seq<Action>, t: State)
    requires Unseen(s, before) && Run(s, actions, t) && AllByOperator(actions)
    ensures Starts(actions) <= 2
    decreases |actions|
  {
    if actions != [] {
      var a, rest := actions[0], actions[1..];
      assert ByOperator(a);
      TracksStep(s, a);
      var next := Apply(s, a);
      if a == Deliver {
        assert next.events + next.lag == s.events + s.lag;
        FromRestAtMostTwo(next, before, rest, t);
      } else {
        assert a == Handle;
        HandleUnseen(s, before);
        if before == [] {
          AloneBounded(next, rest, t);
        } else {
          FromRestAtMostTwo(next, before[1..], rest, t);
        }
      }
    }
  }

  lemma LastUnseen(s: State)
    requires Unseen(s, []) && s.events != []
    ensures s.events == [ANNOTATED] && s.lag == [] && s.cached
    ensures Potential(Apply(s, Handle)) == 2
  {
    assert s.events + s.lag == [ANNOTATED];
    assert s.events[0] == (s.events + s.lag)[0] && |s.events| + |s.lag| == 1;
  }

  lemma HandleUnseen(s: State, before: seq<Version>)
    requires Unseen(s, before) && s.events != []
    ensures before == [] ==> Potential(Apply(s, Handle)) == 2
    ensures before != [] ==> Unseen(Apply(s, Handle), before[1..])
  {
    hide MayMiss, Edits;
    assert s.events[0] == (s.events + s.lag)[0];
    assert s.events[1..] + s.lag == (s.events + s.lag)[1..];
    if before == [] {
      LastUnseen(s);
    }
    if before != [] {
      PassingTail(before);
      assert (before + [ANNOTATED])[1..] == before[1..] + [ANNOTATED];
    }
  }

  /** In every run of the operator alone, an annotation adds at most one reconcile to
      the one it asks for and those that are pending anyway. */
  ghost predicate AtMostOneExtra(s: State) {
    !CanStart(Apply(s, Annotate), Potential(s) + 3)
  }

  /** That holds exactly if the Function is not being reconciled and no reconcile is
      pending. Otherwise an annotation can add two: a reconcile that does not see it
      yet flushes the status of an annotated object, and so does the next one. */
  lemma AnnotationCost(s: State)
    requires Tracks(s) && !s.annotated
    ensures AtMostOneExtra(s) <==> s.phase == Idle && Potential(s) == 0
  {
    var next := Apply(s, Annotate);
    if s.phase == Idle && Potential(s) == 0 {
      var before := s.events + s.lag;
      PassingAppend(s.events, s.lag);
      TracksStep(s, Annotate);
      assert next.events + next.lag == before + [ANNOTATED];
      if actions, t :| Makes(next, actions, t, 3) {
        FromRestAtMostTwo(next, before, actions, t);
      }
    } else {
      FromLagging(next, s.lag);
    }
  }

  lemma {:induction false} PassingAppend(a: seq<Version>, b: seq<Version>)
    ensures Passing(a + b) == Passing(a) + Passing(b)
  {
    if b == [] {
      assert a + b == a;
    } else {
      var n := |b| - 1;
      PassingAppend(a, b[..n]);
      PassingSnoc(a + b[..n], b[n]);
      assert a + b == a + b[..n] + [b[n]];
    }
  }

  /** A reconcile may fail at any time, with or without flushing the status, and is
      queued again. What it has not read stays unread. */
  lemma FailureIsTriedAgain(s: State, changed: bool)
    requires s.phase != Idle && (changed ==> s.lag == [])
    ensures Enabled(s, Fail(changed))
    ensures var t := Apply(s, Fail(changed));
            && t.dirty && t.phase == Idle && t.unread == s.unread && t.annotated == s.annotated
            && t.lag == if changed then [Version(false, s.annotated)] else s.lag
  {
  }

  // --- the queue drains ---

  function Weight(phase: Phase): nat {
    match phase
    case Idle => 0
    case Removed => 3
    case Flushed => 6
    case Working => 9
  }

  function Measure(s: State): nat {
    10 * Potential(s) + Weight(s.phase) + 2 * |s.lag| + |s.events|
  }

  lemma MeasureStep(s: State, a: Action)
    requires Tracks(s) && Enabled(s, a) && ByOperator(a)
    ensures Measure(Apply(s, a)) < Measure(s)
  {
    PotentialStep(s, a);
  }

  /** Left alone, the operator comes to rest after boundedly many steps. */
  lemma {:induction false} QueueDrains(s: State, actions: seq<Action>, t: State)
    requires Tracks(s) && Run(s, actions, t)
    requires AllByOperator(actions)
    ensures |actions| <= Measure(s)
    decreases |actions|
  {
    if actions != [] {
      assert ByOperator(actions[0]);
      MeasureStep(s, actions[0]);
      TracksStep(s, actions[0]);
      QueueDrains(Apply(s, actions[0]), actions[1..], t);
    }
  }

  /** Whatever is annotated is on its way to a reconcile that will see it. */
  predicate AnnotationPending(s: State) {
    s.annotated ==>
      || s.dirty
      || Passing(s.events) > 0
      || Passing(s.lag) > 0
      || (s.cached && (s.phase == Working || s.phase == Flushed))
  }

  lemma PendingStep(s: State, a: Action)
    requires Tracks(s) && AnnotationPending(s) && Enabled(s, a)
    ensures AnnotationPending(Apply(s, a))
  {
    match a
    case Deliver =>
      PassingTail(s.lag);
      PassingSnoc(s.events, s.lag[0]);
    case Handle => PassingTail(s.events);
    case EditSpec => PassingSnoc(s.lag, Version(true, s.annotated));
    case Annotate => PassingSnoc(s.lag, ANNOTATED);
    case MidFlush(changed) => PassingSnoc(s.lag, Version(false, s.annotated));
    case FinalFlush => PassingSnoc(s.lag, Version(false, s.annotated));
    case _ =>
  }

  /** Whatever specification has not been read is on its way to a reconcile. */
  predicate EditPending(s: State) {
    s.unread ==> s.dirty || Edits(s.events) || Edits(s.lag)
  }

  /** So is a changed ConfigMap. */
  predicate ConfigPending(s: State) {
    s.unseen ==> s.dirty
  }

  lemma EditsSnoc(versions: seq<Version>, v: Version)
    ensures Edits(versions + [v]) <==> Edits(versions) || v.generationChanged
  {
    var longer := versions + [v];
    assert longer[|versions|] == v;
    if i :| 0 <= i < |versions| && versions[i].generationChanged {
      assert longer[i].generationChanged;
    }
  }

  lemma EditsTail(versions: seq<Version>)
    requires versions != []
    ensures Edits(versions) <==> versions[0].generationChanged || Edits(versions[1..])
  {
    var rest := versions[1..];
    if i :| 0 <= i < |rest| && rest[i].generationChanged {
      assert versions[i + 1].generationChanged;
    }
    if i :| 0 <= i < |versions| && versions[i].generationChanged {
      assert i > 0 ==> rest[i - 1].generationChanged;
    }
  }

  lemma EditPendingStep(s: State, a: Action)
    requires EditPending(s) && ConfigPending(s) && Enabled(s, a)
    ensures EditPending(Apply(s, a)) && ConfigPending(Apply(s, a))
  {
    match a
    case Deliver =>
      EditsTail(s.lag);
      EditsSnoc(s.events, s.lag[0]);
    case Handle => EditsTail(s.events);
    case Start =>
    case ConfigChanged =>
    case EditSpec => EditsSnoc(s.lag, Version(true, s.annotated));
    case Annotate => EditsSnoc(s.lag, ANNOTATED);
    case Unannotate => EditsSnoc(s.lag, BARE);
    case Remove => EditsSnoc(s.lag, BARE);
    case _ => EditsSnoc(s.lag, Version(false, s.annotated));
  }

  predicate Inv(s: State) {
    Tracks(s) && AnnotationPending(s) && EditPending(s) && ConfigPending(s)
  }

  lemma StepInv(s: State, a: Action)
    requires Inv(s) && Enabled(s, a)
    ensures Inv(Apply(s, a))
  {
    TracksStep(s, a);
    PendingStep(s, a);
    EditPendingStep(s, a);
  }

  /** A Function right after it was created or the operator was started: it is queued,
      and nothing of it has been read. */
  predicate Initial(s: State) {
    s == State(s.annotated, s.annotated, [], [], true, Idle, true, true)
  }

  lemma {:induction false} RunInv(s: State, actions: seq<Action>, t: State)
    requires Inv(s) && Run(s, actions, t)
    ensures Inv(t)
    decreases |actions|
  {
    if actions != [] {
      StepInv(s, actions[0]);
      RunInv(Apply(s, actions[0]), actions[1..], t);
    }
  }

  ghost predicate AtRest(s: State) {
    forall a :: ByOperator(a) ==> !Enabled(s, a)
  }

  /** When the operator has nothing left to do then nothing is queued or on its way, no
      annotation with the prefix is left, and a reconcile has started that could read
      the current specification and the current ConfigMap, whatever others did
      before. */
  lemma RestIsClean(s: State, actions: seq<Action>, t: State)
    requires Initial(s) && Run(s, actions, t) && AtRest(t)
    ensures t == State(false, false, [], [], false, Idle, false, false)
  {
    RunInv(s, actions, t);
    RestShape(t);
  }

  lemma RestShape(t: State)
    requires Inv(t) && AtRest(t)
    ensures t == State(false, false, [], [], false, Idle, false, false)
  {
    assert !Enabled(t, Deliver) && !Enabled(t, Handle) && !Enabled(t, Start);
    assert !Enabled(t, MidFlush(false)) && !Enabled(t, Remove) && !Enabled(t, FinalFlush);
  }

  lemma {:induction false} OnlyStartsRead(s: State, actions: seq<Action>, t: State)
    requires Run(s, actions, t) && Starts(actions) == 0
    ensures (s.unread ==> t.unread) && (s.unseen ==> t.unseen)
    decreases |actions|
  {
    if actions != [] {
      OnlyStartsRead(Apply(s, actions[0]), actions[1..], t);
    }
  }

  /** Every edit of the specification and every change of the ConfigMap, whenever it is
      made, is followed by the start of a reconcile before the operator rests. */
  lemma EveryEditIsReconciled(s: State, before: seq<Action>, m: State, edit: Action, after: seq<Action>, t: State)
    requires Initial(s) && Run(s, before, m) && (edit == EditSpec || edit == ConfigChanged)
    requires Run(Apply(m, edit), after, t) && AtRest(t)
    ensures Starts(after) >= 1 && !t.unread && !t.unseen
  {
    RunInv(s, before, m);
    StepInv(m, edit);
    RunInv(Apply(m, edit), after, t);
    RestShape(t);
    if Starts(after) == 0 {
      OnlyStartsRead(Apply(m, edit), after, t);
    }
  }
}
