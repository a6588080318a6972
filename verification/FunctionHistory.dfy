/** The bounded history of a Function: however many events are recorded and in
    whatever order their times come, the newest ones are kept. */
module FunctionHistory {

  datatype Entry = Entry(time: int, message: string)

  const MAX_HISTORY_ENTRIES := 20

  predicate NewestFirst(h: seq<Entry>) {
    forall i, j :: 0 <= i < j < |h| ==> h[i].time >= h[j].time
  }

  /** `h` holds the newest of what was recorded, newest first. */
  ghost predicate Newest(h: seq<Entry>, recorded: multiset<Entry>) {
    && NewestFirst(h)
    && |h| == (if |recorded| < MAX_HISTORY_ENTRIES then |recorded| else MAX_HISTORY_ENTRIES)
    && multiset(h) <= recorded
    && NoneNewer(recorded, multiset(h))
  }

  /** Nothing that was let go is newer than anything kept. */
  ghost predicate NoneNewer(recorded: multiset<Entry>, kept: multiset<Entry>) {
    forall gone: Entry, k: Entry :: recorded[gone] > kept[gone] && k in kept ==> gone.time <= k.time
  }

  /** How many entries are at least as new as `time`. */
  function Position(h: seq<Entry>, time: int): (i: nat)
    requires NewestFirst(h)
    ensures i <= |h|
    ensures forall j :: 0 <= j < |h| ==> (j < i <==> h[j].time >= time)
  {
    if h == [] || h[0].time < time then 0 else 1 + Position(h[1..], time)
  }

  /** sort.Slice by descending time. It is not stable: of entries with equal
      times nothing is promised but that all of them are there. */
  method SortByTime(h: seq<Entry>) returns (sorted: seq<Entry>)
    ensures NewestFirst(sorted)
    ensures multiset(sorted) == multiset(h)
  {
    sorted := [];
    for i := 0 to |h|
      invariant NewestFirst(sorted)
      invariant multiset(sorted) == multiset(h[..i])
    {
      assert h[..i + 1] == h[..i] + [h[i]];
      var k := Position(sorted, h[i].time);
      assert sorted == sorted[..k] + sorted[k..];
      sorted := sorted[..k] + [h[i]] + sorted[k..];
    }
    assert h[..|h|] == h;
  }

  function Cut(all: seq<Entry>): seq<Entry> {
    if |all| > MAX_HISTORY_ENTRIES then all[..MAX_HISTORY_ENTRIES] else all
  }

  /** What one call of RecordHistoryEvent may turn `h` into. */
  ghost predicate Records(h: seq<Entry>, e: Entry, h': seq<Entry>) {
    exists all: seq<Entry> :: NewestFirst(all) && multiset(all) == multiset(h + [e]) && h' == Cut(all)
  }

  /** What recording these events one after the other may lead to. */
  ghost predicate IsHistory(events: seq<Entry>, h: seq<Entry>) {
    if events == [] then h == []
    else
      var n := |events| - 1;
      exists before: seq<Entry> :: IsHistory(events[..n], before) && Records(before, events[n], h)
  }

  method RecordEntry(h: seq<Entry>, e: Entry) returns (h': seq<Entry>)
    ensures Records(h, e, h')
  {
    h' := h + [e];
    h' := SortByTime(h');
    if |h'| > MAX_HISTORY_ENTRIES {
      h' := h'[..MAX_HISTORY_ENTRIES];
    }
  }

  lemma SortedCut(all: seq<Entry>, n: nat)
    requires NewestFirst(all) && n < |all|
    ensures multiset(all) == multiset(all[..n]) + multiset(all[n..])
    ensures forall kept, cut :: kept in multiset(all[..n]) && cut in multiset(all[n..]) ==> cut.time <= kept.time
  {
    assert all == all[..n] + all[n..];
    forall kept, cut | kept in multiset(all[..n]) && cut in multiset(all[n..]) ensures cut.time <= kept.time {
      assert kept in all[..n] && cut in all[n..];
    }
  }

  /** Whatever order the sort gives equal times, cutting after it keeps the
      newest entries. */
  lemma NewestStep(h: seq<Entry>, recorded: multiset<Entry>, e: Entry, all: seq<Entry>)
    requires Newest(h, recorded)
    requires NewestFirst(all) && multiset(all) == multiset(h + [e])
    ensures Newest(Cut(all), recorded + multiset{e})
  {
    assert multiset(h + [e]) == multiset(h) + multiset{e};
    assert |all| == |multiset(all)| == |h| + 1;
    if |all| <= MAX_HISTORY_ENTRIES {
      WholeMultiset(multiset(h), recorded);
    } else {
      FullStep(h, recorded, e, all);
    }
  }

  lemma WholeMultiset(a: multiset<Entry>, b: multiset<Entry>)
    requires a <= b && |a| == |b|
    ensures a == b
  {
    assert b == a + (b - a);
    assert |b - a| == 0;
  }

  lemma FullStep(h: seq<Entry>, recorded: multiset<Entry>, e: Entry, all: seq<Entry>)
    requires Newest(h, recorded) && |h| == MAX_HISTORY_ENTRIES && |all| == |h| + 1
    requires NewestFirst(all) && multiset(all) == multiset(h) + multiset{e}
    ensures Newest(all[..|h|], recorded + multiset{e})
  {
    var last := all[|h|];
    SortedCut(all, |h|);
    assert all[|h|..] == [last];
    assert forall k :: k in multiset(all[..|h|]) ==> last.time <= k.time;
    Exchange(recorded, multiset(h), e, multiset(all[..|h|]), last);
  }

  /** Letting go of the oldest after adding one. */
  lemma Exchange(recorded: multiset<Entry>, kept: multiset<Entry>, e: Entry, kept': multiset<Entry>, last: Entry)
    requires kept <= recorded && NoneNewer(recorded, kept)
    requires kept' + multiset{last} == kept + multiset{e}
    requires forall k :: k in kept' ==> last.time <= k.time
    ensures kept' <= recorded + multiset{e} && NoneNewer(recorded + multiset{e}, kept')
  {
    var one := multiset{e};
    assert forall x: Entry ::
        kept'[x] + multiset{last}[x] == (kept' + multiset{last})[x] == (kept + one)[x] == kept[x] + one[x];
    forall gone: Entry, k: Entry | (recorded + one)[gone] > kept'[gone] && k in kept' ensures gone.time <= k.time {
      if gone != last {
        assert recorded[gone] > kept[gone];
        assert k in kept || last in kept;
      }
    }
  }

  /** The retained times are determined by what was recorded: two histories of
      the same events agree on them, however ties were broken. */
  lemma RetainedTimesDetermined(h1: seq<Entry>, h2: seq<Entry>, recorded: multiset<Entry>)
    requires Newest(h1, recorded) && Newest(h2, recorded)
    ensures |h1| == |h2| && forall i :: 0 <= i < |h1| ==> h1[i].time == h2[i].time
  {
    forall i | 0 <= i < |h1| ensures h1[i].time == h2[i].time {
      NotNewer(h1, h2, recorded, i);
      NotNewer(h2, h1, recorded, i);
    }
  }

  lemma NotNewer(h1: seq<Entry>, h2: seq<Entry>, recorded: multiset<Entry>, i: nat)
    requires Newest(h1, recorded) && Newest(h2, recorded) && i < |h1|
    ensures h1[i].time <= h2[i].time
  {
    if h1[i].time > h2[i].time {
      var x := Surplus(multiset(h1[..i + 1]), multiset(h2[..i]));
      assert x in h1[..i + 1];
      PrefixCount(h1, i + 1, x);
      OnlyBefore(h2, i, x);
    }
  }

  lemma PrefixCount(h: seq<Entry>, i: nat, x: Entry)
    requires i <= |h|
    ensures multiset(h[..i])[x] <= multiset(h)[x]
  {
    assert h == h[..i] + h[i..];
  }

  lemma OnlyBefore(h: seq<Entry>, i: nat, x: Entry)
    requires NewestFirst(h) && i < |h| && x.time > h[i].time
    ensures multiset(h)[x] == multiset(h[..i])[x]
  {
    assert h == h[..i] + h[i..];
    assert x !in h[i..];
  }

  lemma SubsetSize(a: multiset<Entry>, b: multiset<Entry>)
    requires a <= b
    ensures |a| <= |b|
  {
    assert b == a + (b - a);
  }

  lemma Surplus(a: multiset<Entry>, b: multiset<Entry>) returns (x: Entry)
    requires |a| > |b|
    ensures a[x] > b[x]
  {
    if a <= b {
      SubsetSize(a, b);
    }
    x :| a[x] > b[x];
  }

  /** After any number of events with times in any order, the history holds the
      newest twenty, or all if there are fewer, newest first, and nothing that
      was let go is newer than anything kept. */
  lemma {:induction false} HistoryIsNewest(events: seq<Entry>, h: seq<Entry>)
    requires IsHistory(events, h)
    ensures Newest(h, multiset(events))
  {
    if events != [] {
      var before := LastStep(events, h);
      var rest, e := events[..|events| - 1], events[|events| - 1];
      HistoryIsNewest(rest, before);
      RecordsNewest(before, multiset(rest), e, h);
      MultisetOfLast(events);
    } else {
      NewestOfNothing();
    }
  }

  lemma MultisetOfLast(events: seq<Entry>)
    requires events != []
    ensures multiset(events) == multiset(events[..|events| - 1]) + multiset{events[|events| - 1]}
  {
    assert events == events[..|events| - 1] + [events[|events| - 1]];
  }

  lemma NewestOfNothing()
    ensures Newest([], multiset{})
  {
  }

  lemma LastStep(events: seq<Entry>, h: seq<Entry>) returns (before: seq<Entry>)
    requires IsHistory(events, h) && events != []
    ensures IsHistory(events[..|events| - 1], before) && Records(before, events[|events| - 1], h)
  {
    var n := |events| - 1;
    before :| IsHistory(events[..n], before) && Records(before, events[n], h);
  }

  lemma RecordsNewest(h: seq<Entry>, recorded: multiset<Entry>, e: Entry, h': seq<Entry>)
    requires Newest(h, recorded) && Records(h, e, h')
    ensures Newest(h', recorded + multiset{e})
  {
    var all: seq<Entry> :| NewestFirst(all) && multiset(all) == multiset(h + [e]) && h' == Cut(all);
    NewestStep(h, recorded, e, all);
  }

  /** The order in which events arrive does not matter to the retained times. */
  lemma ArrivalOrderIrrelevant(events1: seq<Entry>, h1: seq<Entry>, events2: seq<Entry>, h2: seq<Entry>)
    requires IsHistory(events1, h1) && IsHistory(events2, h2) && multiset(events1) == multiset(events2)
    ensures |h1| == |h2| && forall i :: 0 <= i < |h1| ==> h1[i].time == h2[i].time
  {
    HistoryIsNewest(events1, h1);
    HistoryIsNewest(events2, h2);
    RetainedTimesDetermined(h1, h2, multiset(events1));
  }
}
