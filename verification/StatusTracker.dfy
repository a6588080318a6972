/** The status tracker: writes the in-memory status of a Function when it differs
    from what was last written, retrying on conflicts. */
module StatusTracker {
  import opened Text
  import opened FunctionStatus
  import opened FunctionResource

  /** How one flush went: nothing to write, stored, not stored, or stored although
      an error was reported. */
  datatype Outcome = Skipped | Saved | Rejected | Lost

  class Tracker {
    var original: Status

    constructor (current: Function)
      ensures original == current.status
    {
      original := current.status;
    }

    /** What the tracker remembers is a copy it has not written itself, or what is
        stored. */
    ghost predicate Remembers(server: Server)
      reads this, server
    {
      AsRead(original)
      || (server.statusIsOurs && server.resource.Some? ==> server.resource.value.status == AsStored(original))
    }

    /** Calculates Ready and writes the status if it differs from what is
        remembered. At most one write takes effect, whatever is reported, and it
        changes nothing but the status. Success leaves the stored status equal to
        the one in memory. */
    method Flush(server: Server, current: Function)
      returns (ok: bool, ghost outcome: Outcome, ghost wrote: seq<Write>)
      requires server.Valid() && current.Marked()
      modifies this, server, current
      ensures server.Valid() && current.Marked()
      ensures Explains(current.status.conditions[4], current.status.conditions[..4])
      ensures current.status.conditions[..4] == old(current.status.conditions)[..4]
      ensures current.status == old(current.status).(conditions := current.status.conditions)
      ensures server.log == old(server.log) + wrote
      ensures if outcome.Saved? || outcome.Lost? then |wrote| == 1 && StatusWritten(wrote[0], current.status)
              else wrote == []
      ensures wrote != [] ==> server.resource == Some(wrote[0].after)
      ensures wrote == [] ==> server.StatusKept(old(server.resource))
      ensures server.statusIsOurs && server.resource.Some? ==> old(server.resource).Some?
      ensures outcome.Skipped? <==> current.status == old(original)
      ensures ok <==> outcome.Skipped? || outcome.Saved?
      ensures original == if outcome.Saved? then current.status else old(original)
      ensures ok && old(Remembers(server)) && server.statusIsOurs && server.resource.Some? ==>
                server.resource.value.status == AsStored(current.status)
      ensures server.statusIsOurs && old(server.resource).Some? && server.resource.Some? ==>
                FlushStep(Track(old(original), old(server.resource).value.status), current.status, outcome,
                          Track(original, server.resource.value.status))
      ensures server.calm && old(server.resource).Some? ==>
                ok && (wrote == [] ==> server.resource == old(server.resource))
                && (wrote != [] ==> old(server.resource) == Some(wrote[0].before))
    {
      ghost var now := current.CalculateReadyCondition();
      ReadyStaysMarked(old(current.status.conditions), current.generation, now);
      if original == current.status {
        return true, Skipped, [];
      }
      ok, wrote := Store(server, current.status);
      if ok {
        original := current.status;
        return true, Saved, wrote;
      }
      outcome := if wrote != [] then Lost else Rejected;
    }
  }

  /** The write, tried again on conflicts. */
  method Store(server: Server, status: Status) returns (ok: bool, ghost wrote: seq<Write>)
    requires server.Valid()
    modifies server
    ensures server.Valid() && server.log == old(server.log) + wrote
    ensures wrote != [] ==> |wrote| == 1 && StatusWritten(wrote[0], status) && server.resource == Some(wrote[0].after)
    ensures wrote == [] ==> server.StatusKept(old(server.resource))
    ensures server.statusIsOurs && server.resource.Some? ==> old(server.resource).Some?
    ensures ok ==> wrote != []
    ensures server.calm && old(server.resource).Some? ==> ok && old(server.resource) == Some(wrote[0].before)
  {
    wrote := [];
    var attempts := 0;
    while attempts < RETRY_STEPS
      invariant attempts <= RETRY_STEPS && server.Valid()
      invariant server.log == old(server.log) && wrote == []
      invariant server.StatusKept(old(server.resource))
      invariant server.calm ==> attempts == 0 && server.resource == old(server.resource)
    {
      var latest := server.Get();
      if latest.None? {
        return false, [];
      }
      var r;
      r, wrote := server.UpdateStatus(latest.value.(status := status));
      if r.Written? {
        return true, wrote;
      }
      if r.Failed? {
        return false, wrote;
      }
      attempts := attempts + 1;
    }
    return false, [];
  }

  lemma ReadyStaysMarked(conditions: seq<Condition>, generation: int, now: Time)
    requires FiveConditions(conditions) && FalseHasReason(conditions) && Stamped(conditions) && now.nanos != 0
    ensures var result := WithReady(conditions, generation, now);
            && FiveConditions(result) && FalseHasReason(result) && Stamped(result)
            && result[..4] == conditions[..4] && Explains(result[4], conditions[..4])
  {
    ReadyOfFive(conditions, generation, now);
    SetConditionAt(conditions, ReadyCondition(conditions, generation, now));
  }

  // --- sequences of flushes when nobody else writes the status ---

  /** What the tracker remembers, and what is stored. */
  datatype Track = Track(original: Status, stored: Status)

  /** One flush, as Tracker.Flush promises it. */
  predicate FlushStep(t: Track, current: Status, outcome: Outcome, t': Track) {
    && (outcome.Skipped? <==> current == t.original)
    && t'.original == (if outcome.Saved? then current else t.original)
    && t'.stored == (if outcome.Saved? || outcome.Lost? then AsStored(current) else t.stored)
  }

  /** The run starts from a copy that was read, however old it is, and flushes
      statuses whose conditions have been stamped since. */
  predicate FlushRun(tracks: seq<Track>, currents: seq<Status>, outcomes: seq<Outcome>) {
    && |tracks| == |currents| + 1 == |outcomes| + 1
    && AsRead(tracks[0].original)
    && (forall i :: 0 <= i < |currents| ==> currents[i].conditions != [] && Stamped(currents[i].conditions))
    && forall i :: 0 <= i < |currents| ==> FlushStep(tracks[i], currents[i], outcomes[i], tracks[i + 1])
  }

  /** A write was stored without the tracker learning of it, after one it knows. */
  predicate LostAfterSaved(outcomes: seq<Outcome>, n: nat)
    requires n <= |outcomes|
  {
    exists i, j :: 0 <= i < j < n && outcomes[i].Saved? && outcomes[j].Lost?
  }

  lemma {:induction false} NothingSaved(tracks: seq<Track>, currents: seq<Status>, outcomes: seq<Outcome>, n: nat)
    requires FlushRun(tracks, currents, outcomes) && n <= |currents|
    requires forall i :: 0 <= i < n ==> !outcomes[i].Saved?
    ensures tracks[n].original == tracks[0].original
  {
    if n > 0 {
      NothingSaved(tracks, currents, outcomes, n - 1);
      assert FlushStep(tracks[n - 1], currents[n - 1], outcomes[n - 1], tracks[n]);
    }
  }

  /** What the tracker remembers is the copy it started from, or what is stored. */
  lemma {:induction false} InSync(tracks: seq<Track>, currents: seq<Status>, outcomes: seq<Outcome>, n: nat)
    requires FlushRun(tracks, currents, outcomes) && n <= |currents| && !LostAfterSaved(outcomes, n)
    ensures AsRead(tracks[n].original) || tracks[n].stored == AsStored(tracks[n].original)
  {
    if n > 0 {
      assert FlushStep(tracks[n - 1], currents[n - 1], outcomes[n - 1], tracks[n]);
      if outcomes[n - 1].Lost? {
        forall i | 0 <= i < n
          ensures !outcomes[i].Saved?
        {
        }
        NothingSaved(tracks, currents, outcomes, n);
      } else if !outcomes[n - 1].Saved? {
        InSync(tracks, currents, outcomes, n - 1);
      }
    }
  }

  /** However many flushes fail, and however old the copy was that the run started
      from: a flush that reports success leaves the stored status equal to the one in
      memory, unless a write got lost after another one was saved. With at most two
      flushes, as many as a reconcile makes, there is no exception. */
  lemma SuccessMeansStored(tracks: seq<Track>, currents: seq<Status>, outcomes: seq<Outcome>, n: nat)
    requires FlushRun(tracks, currents, outcomes) && n < |currents|
    requires outcomes[n].Skipped? || outcomes[n].Saved?
    ensures !LostAfterSaved(outcomes, n) || |currents| <= 2 ==> tracks[n + 1].stored == AsStored(currents[n])
  {
    assert FlushStep(tracks[n], currents[n], outcomes[n], tracks[n + 1]);
    if !LostAfterSaved(outcomes, n) {
      InSync(tracks, currents, outcomes, n);
      assert currents[n].conditions[0].since.nanos != 0;
    }
  }
}
