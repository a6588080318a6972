/** The status of a Function resource: its conditions with the Ready summary,
    and its bounded history. */
module FunctionStatus {
  import opened Text

  // --- conditions ---

  datatype ConditionStatus = True | False | Unknown

  /** The condition types of a Function; Ready summarizes the other four. */
  datatype Kind = SourceReady | Deployed | MiddlewareUpToDate | ServiceReady | Ready

  /** The API server keeps whole seconds only. */
  datatype Time = Time(seconds: int, nanos: nat)

  /** `since` is the last transition time. */
  datatype Condition = Condition(
    kind: Kind,
    status: ConditionStatus,
    reason: string,
    message: string,
    observedGeneration: int,
    since: Time)

  const FUNCTION_CONDITIONS: seq<Kind> := [SourceReady, Deployed, MiddlewareUpToDate, ServiceReady]

  function IndexOf(conditions: seq<Condition>, kind: Kind): (i: nat)
    ensures i <= |conditions|
    ensures i < |conditions| ==> conditions[i].kind == kind
    ensures forall j :: 0 <= j < i ==> conditions[j].kind != kind
  {
    if conditions == [] then 0
    else if conditions[0].kind == kind then 0
    else 1 + IndexOf(conditions[1..], kind)
  }

  /** `c` in place of `was`: the time stays unless the status changes. */
  function Timed(c: Condition, was: Condition): Condition {
    if c.status == was.status then c.(since := was.since) else c
  }

  /** meta.SetStatusCondition: replace the condition of that type, or append it.
      `c.since` is what the clock shows. */
  function SetCondition(conditions: seq<Condition>, c: Condition): seq<Condition> {
    var i := IndexOf(conditions, c.kind);
    if i < |conditions| then conditions[i := Timed(c, conditions[i])] else conditions + [c]
  }

  // --- times in memory and on the API server ---

  /** All times are readings of the clock, which does not hit a whole second. */
  predicate Stamped(conditions: seq<Condition>) {
    forall i :: 0 <= i < |conditions| ==> conditions[i].since.nanos != 0
  }

  predicate WholeSeconds(conditions: seq<Condition>) {
    forall i :: 0 <= i < |conditions| ==> conditions[i].since.nanos == 0
  }

  function StoredConditions(conditions: seq<Condition>): (stored: seq<Condition>)
    ensures |stored| == |conditions| && WholeSeconds(stored)
    ensures forall i :: 0 <= i < |conditions| ==>
              stored[i] == conditions[i].(since := Time(conditions[i].since.seconds, 0))
  {
    if conditions == [] then []
    else
      var last := conditions[|conditions| - 1];
      StoredConditions(conditions[..|conditions| - 1]) + [last.(since := Time(last.since.seconds, 0))]
  }

  /** The five conditions, each once and in this order. A condition that has not
      been marked yet is Unknown, with a reason but no message. */
  predicate FiveConditions(conditions: seq<Condition>) {
    && |conditions| == 5
    && conditions[0].kind == SourceReady
    && conditions[1].kind == Deployed
    && conditions[2].kind == MiddlewareUpToDate
    && conditions[3].kind == ServiceReady
    && conditions[4].kind == Ready
    && forall i :: 0 <= i < 4 && conditions[i].status == Unknown ==>
                     conditions[i].reason == "unknown" && conditions[i].message == ""
  }

  function KindIndex(kind: Kind): nat {
    match kind
    case SourceReady => 0
    case Deployed => 1
    case MiddlewareUpToDate => 2
    case ServiceReady => 3
    case Ready => 4
  }

  lemma SetConditionAt(conditions: seq<Condition>, c: Condition)
    requires FiveConditions(conditions)
    ensures SetCondition(conditions, c) == conditions[KindIndex(c.kind) := Timed(c, conditions[KindIndex(c.kind)])]
    ensures var was, now := conditions[KindIndex(c.kind)], SetCondition(conditions, c)[KindIndex(c.kind)];
            now == c.(since := if was.status == c.status then was.since else c.since)
  {
    var i := IndexOf(conditions, c.kind);
    assert conditions[KindIndex(c.kind)].kind == c.kind;
  }

  /** The statuses of the four conditions that Ready summarizes. */
  datatype Verdicts = Verdicts(
    source: ConditionStatus,
    deployed: ConditionStatus,
    middleware: ConditionStatus,
    service: ConditionStatus)
  {
    function With(kind: Kind, status: ConditionStatus): Verdicts {
      match kind
      case SourceReady => this.(source := status)
      case Deployed => this.(deployed := status)
      case MiddlewareUpToDate => this.(middleware := status)
      case ServiceReady => this.(service := status)
      case Ready => this
    }
  }

  function VerdictsOf(conditions: seq<Condition>): Verdicts
    requires |conditions| >= 4
  {
    Verdicts(conditions[0].status, conditions[1].status, conditions[2].status, conditions[3].status)
  }

  function Verdict(holds: bool): ConditionStatus {
    if holds then True else False
  }

  function FreshCondition(i: nat, generation: int, now: Time): Condition
    requires i < 5
  {
    if i < 4 then Condition(FUNCTION_CONDITIONS[i], Unknown, "unknown", "", generation, now)
    else Condition(Ready, Unknown, "", "", 0, now)
  }

  /** The first conditions as they are initialized, at these times. */
  function Fresh(generation: int, at: seq<Time>): seq<Condition>
    requires |at| <= 5
  {
    seq(|at|, i requires 0 <= i < |at| => FreshCondition(i, generation, at[i]))
  }

  lemma FreshStep(generation: int, at: seq<Time>, now: Time)
    requires |at| < 5
    ensures SetCondition(Fresh(generation, at), FreshCondition(|at|, generation, now)) == Fresh(generation, at + [now])
  {
    var before := Fresh(generation, at);
    var c := FreshCondition(|at|, generation, now);
    assert forall j :: 0 <= j < |at| ==> before[j].kind != c.kind;
    assert before + [c] == Fresh(generation, at + [now]);
  }

  // --- the Ready summary ---

  datatype Summary = Summary(allReady: bool, reason: string, message: string)

  predicate Holding(c: Condition) {
    c.kind == Ready || c.status == True
  }

  predicate Failing(c: Condition) {
    c.kind != Ready && c.status == False
  }

  predicate Undecided(c: Condition) {
    c.kind != Ready && c.status == Unknown
  }

  /** What CalculateReadyCondition has gathered after these conditions. */
  function Summarize(conditions: seq<Condition>): Summary {
    if conditions == [] then Summary(true, "", "")
    else
      var before := Summarize(conditions[..|conditions| - 1]);
      var c := conditions[|conditions| - 1];
      if Failing(c) then Summary(false, c.reason, c.message)
      else if Undecided(c) then
        Summary(false,
                if before.reason == "" then c.reason else before.reason,
                if before.message == "" then c.message else before.message)
      else before
  }

  function ReadyCondition(conditions: seq<Condition>, generation: int, now: Time): Condition {
    var s := Summarize(conditions);
    if s.allReady then Condition(Ready, True, "ReconcileSucceeded", "", generation, now)
    else Condition(Ready, False, s.reason, s.message, generation, now)
  }

  function WithReady(conditions: seq<Condition>, generation: int, now: Time): seq<Condition> {
    SetCondition(conditions, ReadyCondition(conditions, generation, now))
  }

  lemma {:induction false} AllReadyMeaning(conditions: seq<Condition>)
    ensures Summarize(conditions).allReady <==> forall i :: 0 <= i < |conditions| ==> Holding(conditions[i])
  {
    if conditions != [] {
      AllReadyMeaning(conditions[..|conditions| - 1]);
    }
  }

  /** The last failing condition decides, whatever undecided ones surround it. */
  lemma {:induction false} LastFailureDecides(conditions: seq<Condition>, i: nat)
    requires i < |conditions| && Failing(conditions[i]) && conditions[i].reason != ""
    requires forall j :: i < j < |conditions| ==> !Failing(conditions[j])
    ensures Summarize(conditions).reason == conditions[i].reason
    ensures conditions[i].message != ""
            || (forall j :: i < j < |conditions| && Undecided(conditions[j]) ==> conditions[j].message == "")
            ==> Summarize(conditions).message == conditions[i].message
  {
    if i < |conditions| - 1 {
      LastFailureDecides(conditions[..|conditions| - 1], i);
    }
  }

  /** Without a failing condition the first undecided one that gives a reason
      decides. */
  lemma {:induction false} FirstUndecidedDecides(conditions: seq<Condition>, i: nat)
    requires i < |conditions| && Undecided(conditions[i]) && conditions[i].reason != ""
    requires forall j :: 0 <= j < |conditions| ==> !Failing(conditions[j])
    requires forall j :: 0 <= j < i && Undecided(conditions[j]) ==> conditions[j].reason == ""
    ensures Summarize(conditions).reason == conditions[i].reason
  {
    if i < |conditions| - 1 {
      FirstUndecidedDecides(conditions[..|conditions| - 1], i);
    } else {
      NoReasonYet(conditions[..i]);
    }
  }

  lemma {:induction false} NoReasonYet(conditions: seq<Condition>)
    requires forall j :: 0 <= j < |conditions| ==> !Failing(conditions[j])
    requires forall j :: 0 <= j < |conditions| && Undecided(conditions[j]) ==> conditions[j].reason == ""
    ensures Summarize(conditions).reason == ""
  {
    if conditions != [] {
      NoReasonYet(conditions[..|conditions| - 1]);
    }
  }

  // --- sequences of marks ---

  /** A call of one of the Mark methods: they only ever decide a condition. */
  datatype Mark = Mark(kind: Kind, holds: bool, reason: string, message: string)

  predicate IsMark(m: Mark) {
    m.kind != Ready && (!m.holds ==> m.reason != "")
  }

  function MarkedCondition(m: Mark, generation: int, now: Time): Condition {
    Condition(m.kind, Verdict(m.holds), m.reason, m.message, generation, now)
  }

  /** The conditions after initialization at `start`, and these marks at `at`. */
  function Marked(start: seq<Time>, marks: seq<Mark>, at: seq<Time>, generation: int): seq<Condition>
    requires |start| == 5 && |at| == |marks|
  {
    if marks == [] then Fresh(generation, start)
    else
      var n := |marks| - 1;
      SetCondition(Marked(start, marks[..n], at[..n], generation), MarkedCondition(marks[n], generation, at[n]))
  }

  function LastMark(marks: seq<Mark>, kind: Kind): Option<Mark> {
    if marks == [] then None
    else if marks[|marks| - 1].kind == kind then Some(marks[|marks| - 1])
    else LastMark(marks[..|marks| - 1], kind)
  }

  /** `c` says what this mark says, or without one what it said initially. */
  predicate Shows(c: Condition, kind: Kind, m: Option<Mark>, generation: int) {
    match m
    case Some(m) =>
      && c.kind == kind && c.reason == m.reason && c.message == m.message && c.observedGeneration == generation
      && c.status == if m.holds then True else False
    case None => c == Condition(kind, Unknown, "unknown", "", generation, c.since)
  }

  predicate Readings(at: seq<Time>) {
    forall i :: 0 <= i < |at| ==> at[i].nanos != 0
  }

  /** Every condition shows the last mark of its kind, if there was one, and its
      time is a reading of the clock. */
  lemma {:induction false} MarkedShape(start: seq<Time>, marks: seq<Mark>, at: seq<Time>, generation: int)
    requires |start| == 5 && |at| == |marks|
    requires forall i :: 0 <= i < |marks| ==> IsMark(marks[i])
    ensures FiveConditions(Marked(start, marks, at, generation))
    ensures FalseHasReason(Marked(start, marks, at, generation))
    ensures Readings(start) && Readings(at) ==> Stamped(Marked(start, marks, at, generation))
    ensures forall kind :: kind != Ready ==>
              Shows(Marked(start, marks, at, generation)[KindIndex(kind)], kind, LastMark(marks, kind), generation)
  {
    if marks != [] {
      var n := |marks| - 1;
      MarkedShape(start, marks[..n], at[..n], generation);
      assert IsMark(marks[n]);
      MarkOne(Marked(start, marks[..n], at[..n], generation), marks[n], at[n], generation);
      hide FiveConditions, FalseHasReason, Stamped, Shows, SetCondition, MarkedCondition;
      assert Marked(start, marks, at, generation) ==
             SetCondition(Marked(start, marks[..n], at[..n], generation), MarkedCondition(marks[n], generation, at[n]));
    }
  }

  lemma MarkOne(conditions: seq<Condition>, m: Mark, now: Time, generation: int)
    requires FiveConditions(conditions) && FalseHasReason(conditions) && IsMark(m)
    ensures var marked := SetCondition(conditions, MarkedCondition(m, generation, now));
            && FiveConditions(marked) && FalseHasReason(marked)
            && (Stamped(conditions) && now.nanos != 0 ==> Stamped(marked))
            && Shows(marked[KindIndex(m.kind)], m.kind, Some(m), generation)
            && forall kind :: kind != m.kind ==> marked[KindIndex(kind)] == conditions[KindIndex(kind)]
  {
    SetConditionAt(conditions, MarkedCondition(m, generation, now));
  }

  predicate FalseHasReason(conditions: seq<Condition>) {
    forall i :: 0 <= i < |conditions| && Failing(conditions[i]) ==> conditions[i].reason != ""
  }

  predicate LastFalse(four: seq<Condition>, i: nat) {
    i < |four| && four[i].status == False && forall j :: i < j < |four| ==> four[j].status != False
  }

  /** Ready is True exactly when the other conditions are; else it is False and
      explains itself by the last False one, or by an Unknown one if none is False. */
  predicate Explains(ready: Condition, four: seq<Condition>) {
    && ready.kind == Ready
    && (ready.status == True <==> forall i :: 0 <= i < |four| ==> four[i].status == True)
    && (ready.status != True ==> ready.status == False)
    && (forall i :: 0 <= i < |four| && LastFalse(four, i) ==>
                      ready.reason == four[i].reason && ready.message == four[i].message)
    && (ready.status == False && (forall i :: 0 <= i < |four| ==> four[i].status != False) ==>
          ready.reason == "unknown")
  }

  lemma ReadyOfFive(conditions: seq<Condition>, generation: int, now: Time)
    requires FiveConditions(conditions) && FalseHasReason(conditions)
    ensures var result := WithReady(conditions, generation, now);
            && FiveConditions(result) && result[..4] == conditions[..4] && Explains(result[4], conditions[..4])
            && result[4].observedGeneration == generation
            && (result[4].status == True ==> result[4].reason == "ReconcileSucceeded" && result[4].message == "")
  {
    var four := conditions[..4];
    SetConditionAt(conditions, ReadyCondition(conditions, generation, now));
    AllReadyMeaning(conditions);
    forall i | 0 <= i < |four| && LastFalse(four, i)
      ensures Summarize(conditions).reason == four[i].reason && Summarize(conditions).message == four[i].message
    {
      assert Failing(conditions[i]);
      LastFailureDecides(conditions, i);
    }
    if forall i :: 0 <= i < 4 ==> four[i].status != False {
      NoneFailing(conditions);
    }
  }

  lemma NoneFailing(conditions: seq<Condition>)
    requires FiveConditions(conditions) && forall i :: 0 <= i < 4 ==> conditions[i].status != False
    ensures Summarize(conditions).allReady || Summarize(conditions).reason == "unknown"
  {
    AllReadyMeaning(conditions);
    if i :| 0 <= i < 4 && conditions[i].status == Unknown &&
            forall j :: 0 <= j < i ==> conditions[j].status != Unknown {
      FirstUndecidedDecides(conditions, i);
    } else {
      assert conditions[0].status != Unknown && conditions[1].status != Unknown;
      assert conditions[2].status != Unknown && conditions[3].status != Unknown;
      assert forall i :: 0 <= i < 5 ==> Holding(conditions[i]);
    }
  }

  /** After InitializeConditions and any marks there are exactly the five
      conditions, in order, and calculating Ready changes no other and explains
      them all. */
  lemma ReadySummarizes(start: seq<Time>, marks: seq<Mark>, at: seq<Time>, generation: int, now: Time)
    requires |start| == 5 && |at| == |marks|
    requires forall i :: 0 <= i < |marks| ==> IsMark(marks[i])
    ensures var conditions := Marked(start, marks, at, generation);
            var result := WithReady(conditions, generation, now);
            && FiveConditions(result) && result[..4] == conditions[..4] && Explains(result[4], conditions[..4])
            && result[4].observedGeneration == generation
            && (result[4].status == True ==> result[4].reason == "ReconcileSucceeded" && result[4].message == "")
  {
    MarkedShape(start, marks, at, generation);
    ReadyOfFive(Marked(start, marks, at, generation), generation, now);
  }
}
