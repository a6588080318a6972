/** The Function resource: its status, the in-memory copy a reconcile works on,
    and the versioned object on the API server that others change as well. */
module FunctionResource {
  import opened Text
  import opened FunctionStatus
  import opened FunctionHistory

  const ANNOTATION_PREFIX := "functions.knative.dev/"

  datatype AutoUpdate = AutoUpdate(enabled: bool, source: string)

  datatype Status = Status(
    name: string,
    resolvedRevision: string,
    observedCommit: string,
    lastChecked: int,
    image: string,
    imageBuilt: int,
    revision: string,
    deployer: string,
    runtime: string,
    middleware: string,
    available: Option<string>,
    autoUpdate: AutoUpdate,
    pendingRebuild: bool,
    lastRebuild: int,
    url: string,
    ready: string,
    history: seq<Entry>,
    conditions: seq<Condition>)

  /** The status as the API server keeps it. */
  function AsStored(s: Status): (stored: Status)
    ensures stored == s.(conditions := stored.conditions) && |stored.conditions| == |s.conditions|
    ensures forall i :: 0 <= i < |s.conditions| ==>
              stored.conditions[i] == s.conditions[i].(since := Time(s.conditions[i].since.seconds, 0))
  {
    s.(conditions := StoredConditions(s.conditions))
  }

  /** A status that came from the API server. */
  predicate AsRead(s: Status) {
    WholeSeconds(s.conditions)
  }

  /** `repository` stands for the rest of the specification. */
  datatype FunctionSpec = FunctionSpec(autoUpdateMiddleware: Option<bool>, repository: string)

  datatype Stored = Stored(
    version: nat,
    generation: int,
    spec: FunctionSpec,
    annotations: map<string, string>,
    status: Status)

  // --- the in-memory copy ---

  method Clock() returns (now: Time)
    ensures now.nanos != 0
  {
    var seconds: int := *;
    var nanos: int := *;
    now := Time(seconds, if nanos > 0 then nanos else 1);
  }

  class Function {
    const generation: int
    const spec: FunctionSpec
    var status: Status

    constructor (from: Stored)
      ensures generation == from.generation && spec == from.spec && status == from.status
    {
      generation := from.generation;
      spec := from.spec;
      status := from.status;
    }

    ghost predicate Marked()
      reads this
    {
      FiveConditions(status.conditions) && FalseHasReason(status.conditions) && Stamped(status.conditions)
    }

    function Shown(): Verdicts
      requires |status.conditions| >= 4
      reads this
    {
      VerdictsOf(status.conditions)
    }

    /** Whatever conditions there were, five fresh ones result. */
    method InitializeConditions() returns (ghost at: seq<Time>)
      modifies this
      ensures |at| == 5 && Readings(at)
      ensures status == old(status).(conditions := Fresh(generation, at))
      ensures Marked()
      ensures forall i :: 0 <= i < 4 ==>
                status.conditions[i].status == Unknown && status.conditions[i].observedGeneration == generation
    {
      status := status.(conditions := []);
      at := [];
      for i := 0 to |FUNCTION_CONDITIONS|
        invariant |at| == i && Readings(at)
        invariant status == old(status).(conditions := Fresh(generation, at))
      {
        var now := Clock();
        FreshStep(generation, at, now);
        var c := Condition(FUNCTION_CONDITIONS[i], Unknown, "unknown", "", generation, now);
        status := status.(conditions := SetCondition(status.conditions, c));
        at := at + [now];
      }
      var now := Clock();
      FreshStep(generation, at, now);
      status := status.(conditions := SetCondition(status.conditions, Condition(Ready, Unknown, "", "", 0, now)));
      at := at + [now];
    }

    /** The Mark methods: decide one condition, leave everything else alone. The
        time of the condition stays if its status does. */
    method Decide(m: Mark)
      requires Marked() && IsMark(m)
      modifies this
      ensures var i := KindIndex(m.kind);
              && |status.conditions| == 5 && status.conditions[i].observedGeneration == generation
              && status.conditions[i].reason == m.reason && status.conditions[i].message == m.message
              && status == old(status).(conditions := old(status.conditions)
                             [i := MarkedCondition(m, generation, status.conditions[i].since)])
              && (old(status.conditions)[i].status == Verdict(m.holds) ==>
                    status.conditions[i].since == old(status.conditions)[i].since)
      ensures Marked() && Shown() == old(Shown()).With(m.kind, Verdict(m.holds))
    {
      var now := Clock();
      SetConditionAt(status.conditions, MarkedCondition(m, generation, now));
      status := status.(conditions := SetCondition(status.conditions, MarkedCondition(m, generation, now)));
    }

    method CalculateReadyCondition() returns (ghost now: Time)
      modifies this
      ensures now.nanos != 0
      ensures status == old(status).(conditions := WithReady(old(status.conditions), generation, now))
    {
      var allReady, reason, message := true, "", "";
      for i := 0 to |status.conditions|
        invariant Summarize(status.conditions[..i]) == Summary(allReady, reason, message)
      {
        assert status.conditions[..i + 1][..i] == status.conditions[..i];
        var c := status.conditions[i];
        if c.kind != Ready {
          if c.status == False {
            allReady, reason, message := false, c.reason, c.message;
          } else if c.status == Unknown {
            allReady := false;
            if reason == "" {
              reason := c.reason;
            }
            if message == "" {
              message := c.message;
            }
          }
        }
      }
      assert status.conditions[..|status.conditions|] == status.conditions;
      var reading := Clock();
      var ready := if allReady then Condition(Ready, True, "ReconcileSucceeded", "", generation, reading)
                   else Condition(Ready, False, reason, message, generation, reading);
      status := status.(conditions := SetCondition(status.conditions, ready));
      now := reading;
    }

    method RecordHistoryEvent(message: string, time: int)
      modifies this
      ensures status == old(status).(history := status.history)
      ensures Records(old(status.history), Entry(time, message), status.history)
    {
      var history := RecordEntry(status.history, Entry(time, message));
      status := status.(history := history);
    }
  }

  // --- the API server ---

  /** The outcome of a write as the operator sees it. */
  datatype WriteResult = Written | Conflict | Failed

  /** `now` is what others may have made of `was`; they use versions from `next`
      on. With `keepStatus` they leave the status alone. */
  predicate Rely(was: Option<Stored>, now: Option<Stored>, next: nat, keepStatus: bool) {
    now == was || now.None?
    || (&& now.value.version >= next
        && (keepStatus ==> was.Some? && now.value.status == was.value.status))
  }

  /** One effective write: the object right before and right after it. */
  datatype Write = Write(before: Stored, after: Stored)

  /** The write changed nothing but the status, to `s`. */
  predicate StatusWritten(w: Write, s: Status) {
    w.after == w.before.(status := AsStored(s), version := w.after.version)
  }

  /** The write dropped the prefixed annotations present at that time, and changed
      nothing else. */
  predicate AnnotationsDropped(w: Write) {
    w.after == w.before.(annotations := WithoutFuncAnnotations(w.before.annotations), version := w.after.version)
  }

  class Server {
    /** Nobody but this operator writes the status. */
    const statusIsOurs: bool
    /** Nobody else writes at all, reads are up to date, and no call fails. */
    const calm: bool
    var resource: Option<Stored>
    var next: nat
    /** Every write of this operator that took effect, in order. */
    ghost var log: seq<Write>
    /** Every copy that this operator has read, in order. */
    ghost var copies: seq<Stored>

    ghost predicate Valid()
      reads this
    {
      resource.Some? ==> resource.value.version < next && AsRead(resource.value.status)
    }

    /** Nobody but the operator has changed the status since it was `was`. */
    ghost predicate StatusKept(was: Option<Stored>)
      reads this
    {
      statusIsOurs && resource.Some? ==> was.Some? && resource.value.status == was.value.status
    }

    /** Between any two calls, others may write or delete the object. */
    method Others()
      requires Valid()
      modifies this`resource, this`next
      ensures Valid() && next >= old(next)
      ensures Rely(old(resource), resource, old(next), statusIsOurs)
      ensures calm ==> resource == old(resource)
    {
      if calm {
        return;
      }
      if * {
        resource := None;
      } else if * {
        var o: Stored := *;
        if !statusIsOurs || resource.Some? {
          var status := if statusIsOurs then resource.value.status else AsStored(o.status);
          resource := Some(o.(version := next, status := status));
          next := next + 1;
        }
      }
    }

    /** A read may fail, and may return a copy that is out of date. */
    method Get() returns (r: Option<Stored>)
      requires Valid()
      modifies this`resource, this`next, this`copies
      ensures Valid() && next >= old(next)
      ensures Rely(old(resource), resource, old(next), statusIsOurs)
      ensures r.Some? ==> r.value.version < next && AsRead(r.value.status)
      ensures r.Some? && resource.Some? && r.value.version == resource.value.version ==> r == resource
      ensures copies == old(copies) + if r.Some? then [r.value] else []
      ensures calm ==> r == resource == old(resource)
    {
      Others();
      if calm {
        r := resource;
      } else if * {
        r := None;
      } else if * {
        r := resource;
      } else {
        var o: Stored := *;
        o := o.(status := AsStored(o.status));
        r := if o.version >= next then None
             else if resource.Some? && o.version == resource.value.version then resource
             else Some(o);
      }
      if r.Some? {
        copies := copies + [r.value];
      }
    }

    /** Status().Update: stores the status and nothing else, if the version is the
        current one. A failure may be reported although that happened; `wrote`
        knows. */
    method UpdateStatus(latest: Stored) returns (r: WriteResult, ghost wrote: seq<Write>)
      requires Valid()
      modifies this`resource, this`next, this`log
      ensures Valid() && log == old(log) + wrote
      ensures wrote == [] ==> StatusKept(old(resource)) && (calm ==> resource == old(resource))
      ensures wrote != [] ==>
                && |wrote| == 1 && resource == Some(wrote[0].after)
                && wrote[0].before.version == latest.version && StatusWritten(wrote[0], latest.status)
                && (statusIsOurs ==> old(resource).Some?) && (calm ==> old(resource) == Some(wrote[0].before))
      ensures r.Written? ==> wrote != []
      ensures r.Conflict? ==> wrote == []
      ensures calm && old(resource).Some? && old(resource).value.version == latest.version ==> r.Written?
    {
      Others();
      wrote := [];
      if * {
        if !calm {
          return Failed, [];
        }
      }
      if resource.None? {
        return Failed, [];
      }
      if resource.value.version != latest.version {
        return Conflict, [];
      }
      ghost var before := resource.value;
      resource := Some(resource.value.(status := AsStored(latest.status), version := next));
      next := next + 1;
      wrote := [Write(before, resource.value)];
      log := log + wrote;
      r := Written;
      if * {
        if !calm {
          r := Failed;
        }
      }
    }

    /** Update of everything but the status, if the version is the current one. */
    method Update(latest: Stored) returns (r: WriteResult, ghost wrote: seq<Write>)
      requires Valid()
      modifies this`resource, this`next, this`log
      ensures Valid() && log == old(log) + wrote
      ensures wrote == [] ==> StatusKept(old(resource)) && (calm ==> resource == old(resource))
      ensures wrote != [] ==>
                && |wrote| == 1 && resource == Some(wrote[0].after) && StatusKept(old(resource))
                && Rely(old(resource), Some(wrote[0].before), old(next), statusIsOurs)
                && wrote[0].before.version == latest.version
                && wrote[0].after == latest.(status := wrote[0].before.status, generation := wrote[0].after.generation,
                                             version := wrote[0].after.version)
                && (latest.spec == wrote[0].before.spec ==> wrote[0].after.generation == wrote[0].before.generation)
                && (calm ==> old(resource) == Some(wrote[0].before))
      ensures r.Written? ==> wrote != []
      ensures r.Conflict? ==> wrote == []
      ensures calm && old(resource).Some? && old(resource).value.version == latest.version ==> r.Written?
    {
      Others();
      wrote := [];
      if * {
        if !calm {
          return Failed, [];
        }
      }
      if resource.None? {
        return Failed, [];
      }
      if resource.value.version != latest.version {
        return Conflict, [];
      }
      ghost var before := resource.value;
      var generation := resource.value.generation + if latest.spec == resource.value.spec then 0 else 1;
      resource := Some(latest.(status := resource.value.status, generation := generation, version := next));
      next := next + 1;
      wrote := [Write(before, resource.value)];
      log := log + wrote;
      r := Written;
      if * {
        if !calm {
          r := Failed;
        }
      }
    }
  }

  /** retry.DefaultRetry makes at most this many attempts, and only conflicts are
      tried again. */
  const RETRY_STEPS := 5

  // --- annotations ---

  /** Removing the prefixed annotations removes those and no others, and if there are
      none it is not called for. */
  lemma WithoutMeaning(annotations: map<string, string>)
    ensures forall k :: k in WithoutFuncAnnotations(annotations) <==> k in annotations && !(ANNOTATION_PREFIX <= k)
    ensures forall k :: k in WithoutFuncAnnotations(annotations) ==>
              WithoutFuncAnnotations(annotations)[k] == annotations[k]
    ensures HasFuncAnnotations(annotations) <==> WithoutFuncAnnotations(annotations) != annotations
  {
    if k :| k in annotations && ANNOTATION_PREFIX <= k {
      assert k !in WithoutFuncAnnotations(annotations);
    }
  }

  predicate Unprefixed(annotations: map<string, string>) {
    forall k :: k in annotations ==> !(ANNOTATION_PREFIX <= k)
  }

  predicate HasFuncAnnotations(annotations: map<string, string>) {
    exists k :: k in annotations && HasPrefix(k, ANNOTATION_PREFIX)
  }

  function WithoutFuncAnnotations(annotations: map<string, string>): map<string, string> {
    map k | k in annotations && !HasPrefix(k, ANNOTATION_PREFIX) :: annotations[k]
  }

  method DropFuncAnnotations(annotations: map<string, string>) returns (rest: map<string, string>)
    ensures forall k :: k in rest <==> k in annotations && !(ANNOTATION_PREFIX <= k)
    ensures forall k :: k in rest ==> rest[k] == annotations[k]
    ensures rest == WithoutFuncAnnotations(annotations)
  {
    rest := annotations;
    var left := annotations.Keys;
    while left != {}
      invariant left <= annotations.Keys
      invariant rest.Keys <= annotations.Keys
      invariant forall k :: k in annotations ==> (k in rest <==> k in left || !HasPrefix(k, ANNOTATION_PREFIX))
      invariant forall k :: k in rest ==> rest[k] == annotations[k]
      decreases left
    {
      var key :| key in left;
      left := left - {key};
      if HasPrefix(key, ANNOTATION_PREFIX) {
        rest := rest - {key};
      }
    }
  }

  /** Removes the prefixed annotations. Whatever happens, and whoever else writes,
      at most one write takes effect, and that one drops exactly the prefixed
      annotations present at its time. Success without a write means that the copy
      it read last had none. */
  method RemoveFuncAnnotations(server: Server) returns (ok: bool, ghost removal: seq<Write>)
    requires server.Valid()
    modifies server
    ensures server.Valid() && server.log == old(server.log) + removal
    ensures |removal| <= 1 && forall w :: w in removal ==> AnnotationsDropped(w)
    ensures forall w :: w in removal ==>
              && (forall k :: k in w.after.annotations <==> k in w.before.annotations && !(ANNOTATION_PREFIX <= k))
              && (forall k :: k in w.after.annotations ==> w.after.annotations[k] == w.before.annotations[k])
              && w.after.spec == w.before.spec && w.after.status == w.before.status
    ensures removal != [] ==> server.resource == Some(removal[0].after)
    ensures ok && removal == [] ==>
              && |server.copies| > |old(server.copies)|
              && Unprefixed(server.copies[|server.copies| - 1].annotations)
    ensures server.StatusKept(old(server.resource))
    ensures server.calm && old(server.resource).Some? ==>
              && ok && server.resource.Some?
              && server.resource.value == old(server.resource).value.(
                   annotations := WithoutFuncAnnotations(old(server.resource).value.annotations),
                   version := server.resource.value.version)
  {
    removal := [];
    var attempts := 0;
    while attempts < RETRY_STEPS
      invariant attempts <= RETRY_STEPS && server.Valid()
      invariant removal == [] && server.log == old(server.log)
      invariant |server.copies| >= |old(server.copies)|
      invariant server.StatusKept(old(server.resource))
      invariant server.calm ==> attempts == 0 && server.resource == old(server.resource)
    {
      var latest := server.Get();
      if latest.None? {
        return false, [];
      }
      if !HasFuncAnnotations(latest.value.annotations) {
        WithoutMeaning(latest.value.annotations);
        return true, [];
      }
      var annotations := DropFuncAnnotations(latest.value.annotations);
      var r;
      r, removal := server.Update(latest.value.(annotations := annotations));
      if removal != [] {
        assert removal[0].before == latest.value;
      }
      if r.Written? {
        return true, removal;
      }
      if r.Failed? {
        return false, removal;
      }
      attempts := attempts + 1;
    }
    return false, [];
  }
}
