/**
 Reading a whole history page by page, forward and backward, gives exactly the history.
 */
module Paging {
  import opened Wrappers
  import opened PagingModel

  datatype PagingError = Changed | NoContinuation | DidNotAdvance | HistoryGap

  // ----- positions -----

  lemma {:induction false} PositionOf(log: seq<Event>, i: nat, n: nat)
    requires Increasing(log) && i <= |log|
    requires i > 0 ==> log[i - 1].number < n
    requires i < |log| ==> n <= log[i].number
    ensures Position(log, n) == i
  {
    if i > 0 {
      assert log[0].number <= log[i - 1].number;
      PositionOf(log[1..], i - 1, n);
    }
  }

  /** Equal revisions mean equal events. */
  ghost predicate Versioned(world: nat -> Snapshot) {
    && (forall k :: Increasing(world(k).events))
    && (forall i, k :: world(i).revision == world(k).revision ==> world(i).events == world(k).events)
  }

  /** The page after the events read so far. */
  lemma NextPage(log: seq<Event>, read: nat, revision: nat, size: nat)
    requires Increasing(log) && 0 < read <= |log|
    ensures var page := After(Snapshot(revision, log), log[read - 1].number, size);
      && page.revision == revision && read + |page.events| <= |log|
      && log[..read] + page.events == log[..read + |page.events|]
      && (page.later <==> read + |page.events| < |log|) && (size > 0 && read < |log| ==> page.events != [])
  {
    hide Position;
    PositionOf(log, read, log[read - 1].number + 1);
  }

  /**
   `readAllSessionEvents`. Each read may find another state of the history and any page size from
   one up; a revision that differs from the first one is an error, otherwise the result is the
   whole history as the first read found it.
   */
  method ReadAllSessionEvents(world: nat -> Snapshot, sizes: nat -> nat) returns (r: Result<seq<Event>, PagingError>)
    requires Versioned(world) && forall k :: sizes(k) > 0
    ensures r.Ok? ==> r.value == world(0).events
    ensures r.Err? ==> r.error == Changed && exists k :: world(k).revision != world(0).revision
  {
    hide Position, After;
    ghost var log := world(0).events;
    var first := Head(world(0), sizes(0));
    var events := first.events;
    var current := first;
    var k := 1;
    assert events == log[..|events|];
    while current.later
      invariant |events| <= |log| && events == log[..|events|]
      invariant current.later <==> |events| < |log|
      invariant current.later ==> events != []
      decreases |log| - |events|
    {
      if |events| == 0 { break; }
      var tail := events[|events| - 1];
      var now := world(k);
      current := After(now, tail.number, sizes(k));
      if current.revision != first.revision { return Err(Changed); }
      assert now == Snapshot(first.revision, log);
      NextPage(log, |events|, first.revision, sizes(k));
      events := events + current.events;
      k := k + 1;
    }
    return Ok(events);
  }

  /**
   `readCompleteSession`. It also notices a provider that hands out empty pages, so it ends
   without any assumption on page sizes.
   */
  method ReadCompleteSession(world: nat -> Snapshot, sizes: nat -> nat) returns (r: Result<seq<Event>, PagingError>)
    requires Versioned(world)
    ensures r.Ok? ==> r.value == world(0).events
    ensures r == Err(Changed) ==> exists k :: world(k).revision != world(0).revision
    ensures r == Err(NoContinuation) || r == Err(DidNotAdvance) ==> exists k :: sizes(k) == 0
    ensures r.Err? ==> r.error != HistoryGap
  {
    hide Position, After;
    ghost var log := world(0).events;
    var first := Head(world(0), sizes(0));
    var events := first.events;
    var page := first;
    var k := 1;
    assert events == log[..|events|];
    while page.later
      invariant |events| <= |log| && events == log[..|events|]
      invariant page.later <==> |events| < |log|
      invariant events == [] ==> log == [] || sizes(0) == 0
      decreases |log| - |events|
    {
      if |events| == 0 { return Err(NoContinuation); }
      var last := events[|events| - 1];
      var now := world(k);
      var next := After(now, last.number, sizes(k));
      if next.revision != first.revision { return Err(Changed); }
      assert now == Snapshot(first.revision, log);
      NextPage(log, |events|, first.revision, sizes(k));
      if |next.events| == 0 { return Err(DidNotAdvance); }
      events := events + next.events;
      page := next;
      k := k + 1;
    }
    return Ok(events);
  }

  // ----- backward -----

  /** Other writers only append. */
  ghost predicate Growing(world: nat -> Snapshot) {
    && (forall k :: Increasing(world(k).events))
    && (forall i, k :: i <= k ==> world(i).events <= world(k).events)
  }

  /** The events kept are those of `log`, each number once. */
  ghost predicate Keeps(kept: seq<Event>, log: seq<Event>) {
    && (forall e :: e in kept <==> e in log)
    && (forall i, j :: 0 <= i < j < |kept| ==> kept[i].number != kept[j].number)
  }

  lemma {:induction false} PutNew(kept: seq<Event>, e: Event)
    requires forall f :: f in kept ==> f.number != e.number
    ensures Put(kept, e) == kept + [e]
  {
    if kept != [] {
      assert kept[0] in kept;
      PutNew(kept[1..], e);
      assert kept + [e] == [kept[0]] + (kept[1..] + [e]);
    }
  }

  lemma {:induction false} PutAllNew(log: seq<Event>, from: nat, to: nat, kept: seq<Event>, n: nat)
    requires Increasing(log) && from + n <= to <= |log| && Keeps(kept, log[to..])
    ensures PutAll(kept, log[from..from + n]) == kept + log[from..from + n]
  {
    var page := log[from..from + n];
    if n == 0 {
      assert page == [] && kept + [] == kept;
    } else {
      assert page[..n - 1] == log[from..from + n - 1];
      PutAllNew(log, from, to, kept, n - 1);
      forall f | f in kept + page[..n - 1] ensures f.number != page[n - 1].number {
        if f in kept { assert f in log[to..]; }
      }
      PutNew(kept + page[..n - 1], page[n - 1]);
      assert kept + page == kept + page[..n - 1] + [page[n - 1]];
    }
  }

  lemma PageKept(log: seq<Event>, from: nat, to: nat, kept: seq<Event>)
    requires Increasing(log) && from <= to <= |log| && Keeps(kept, log[to..])
    ensures Keeps(PutAll(kept, log[from..to]), log[from..to] + log[to..])
  {
    var page := log[from..to];
    PutAllNew(log, from, to, kept, to - from);
    var all := kept + page;
    forall i, j | 0 <= i < j < |all| ensures all[i].number != all[j].number {
      if i < |kept| <= j {
        assert kept[i] in log[to..];
        assert all[j] == log[from + j - |kept|];
      }
    }
    forall e ensures e in all <==> e in page + log[to..] {
      assert e in kept <==> e in log[to..];
    }
  }

  // ----- sorting -----

  lemma {:induction false} InsertSorts(e: Event, sorted: seq<Event>)
    requires Increasing(sorted) && forall f :: f in sorted ==> f.number != e.number
    ensures Increasing(Insert(e, sorted))
    ensures forall f :: f in Insert(e, sorted) <==> f == e || f in sorted
  {
    if sorted != [] {
      assert sorted == [sorted[0]] + sorted[1..];
      assert sorted[0] in sorted;
      if e.number > sorted[0].number {
        InsertSorts(e, sorted[1..]);
        var rest := Insert(e, sorted[1..]);
        forall k | 0 <= k < |rest| ensures sorted[0].number < rest[k].number { assert rest[k] in rest; }
      }
    }
  }

  lemma {:induction false} SortedSorts(events: seq<Event>)
    requires forall i, j :: 0 <= i < j < |events| ==> events[i].number != events[j].number
    ensures Increasing(Sorted(events)) && forall f :: f in Sorted(events) <==> f in events
  {
    if events != [] {
      SortedSorts(events[1..]);
      assert events == [events[0]] + events[1..];
      forall f | f in Sorted(events[1..]) ensures f.number != events[0].number {
        var k :| 0 <= k < |events[1..]| && events[1..][k] == f;
        assert events[k + 1] == f;
      }
      InsertSorts(events[0], Sorted(events[1..]));
    }
  }

  /** The same events in increasing order are the same sequence. */
  lemma {:induction false} OrderUnique(a: seq<Event>, b: seq<Event>)
    requires Increasing(a) && Increasing(b) && forall e :: e in a <==> e in b
    ensures a == b
  {
    if a == [] {
      if b != [] { SomeEvent(b); }
    } else if b == [] {
      SomeEvent(a);
    } else {
      FirstIsLeast(a);
      FirstIsLeast(b);
      assert a[0] in b && b[0] in a;
      assert a[0] == b[0];
      forall e ensures e in a[1..] <==> e in b[1..] {
        TailMembers(a, e);
        TailMembers(b, e);
      }
      OrderUnique(a[1..], b[1..]);
      assert a == [a[0]] + a[1..] && b == [b[0]] + b[1..];
    }
  }

  lemma SomeEvent(a: seq<Event>)
    requires a != []
    ensures exists e :: e in a
  {
    assert a[0] in a;
  }

  lemma FirstIsLeast(a: seq<Event>)
    requires Increasing(a) && a != []
    ensures a[0] in a && forall e :: e in a ==> e == a[0] || a[0].number < e.number
  {
  }

  lemma TailMembers(a: seq<Event>, e: Event)
    requires Increasing(a) && a != []
    ensures e in a[1..] <==> e in a && e != a[0]
  {
    if e in a && e != a[0] {
      var k :| 0 <= k < |a| && a[k] == e;
      assert a[1..][k - 1] == e;
    }
  }

  /** Where a page that ends before `to` begins. */
  function Begins(to: nat, size: nat): (from: nat)
    ensures from <= to && (from == to > 0 ==> size == 0)
  {
    if size <= to then to - size else 0
  }

  /** The page before an event of `log`, read from a history that has grown since. */
  lemma PreviousPage(log: seq<Event>, now: Snapshot, to: nat, size: nat)
    requires Increasing(now.events) && log <= now.events && to < |log|
    ensures var page := Before(now, log[to].number, size);
      page.events == log[Begins(to, size)..to] && (page.earlier <==> Begins(to, size) > 0)
  {
    hide Position;
    assert now.events[to] == log[to];
    PositionOf(now.events, to, log[to].number);
    var from := Begins(to, size);
    assert now.events[..|log|] == log;
    assert now.events[from..to] == log[from..to];
  }

  lemma GrownFrom(world: nat -> Snapshot, k: nat)
    requires Growing(world)
    ensures world(0).events <= world(k).events && Increasing(world(k).events) && Increasing(world(0).events)
  {
  }

  lemma LastPage(log: seq<Event>, revision: nat, size: nat)
    ensures var page := Tail(Snapshot(revision, log), size);
      page.events == log[Begins(|log|, size)..|log|] && (page.earlier <==> Begins(|log|, size) > 0)
  {
  }

  /**
   `readDurableEvents`. While the pages are read the history may grow at its end; the result is
   the whole history as the first read found it. An empty page short of the start is an error.
   */
  method ReadDurableEvents(world: nat -> Snapshot, sizes: nat -> nat) returns (r: Result<seq<Event>, PagingError>)
    requires Growing(world)
    ensures r.Ok? ==> r.value == world(0).events
    ensures r.Err? ==> r.error == HistoryGap && exists k :: sizes(k) == 0
  {
    hide PutAll, Sorted, Keeps, Before, Tail, Increasing, Growing, Begins;
    ghost var log := world(0).events;
    var events: seq<Event> := [];
    var window := Tail(world(0), sizes(0));
    var k := 0;
    ghost var from, to := Begins(|log|, sizes(0)), |log|;
    NothingKept(log);
    LastPage(log, world(0).revision, sizes(0));
    GrownFrom(world, 0);
    while true
      invariant 0 <= from <= to <= |log| && window.events == log[from..to] && (window.earlier <==> from > 0)
      invariant Keeps(events, log[to..])
      invariant from == to > 0 ==> exists i :: sizes(i) == 0
      decreases from, |window.events|
    {
      PageKept(log, from, to, events);
      JoinSlices(log, from, to);
      events := PutAll(events, window.events);
      if !window.earlier {
        SortGives(events, log);
        break;
      }
      if |window.events| == 0 { return Err(HistoryGap); }
      var first := window.events[0];
      k := k + 1;
      GrownFrom(world, k);
      PreviousPage(log, world(k), from, sizes(k));
      window := Before(world(k), first.number, sizes(k));
      to := from;
      from := Begins(to, sizes(k));
    }
    return Ok(Sorted(events));
  }

  lemma JoinSlices(log: seq<Event>, from: nat, to: nat)
    requires from <= to <= |log|
    ensures log[from..to] + log[to..] == log[from..] && log[0..] == log
  {
  }

  lemma SortGives(kept: seq<Event>, log: seq<Event>)
    requires Increasing(log) && Keeps(kept, log)
    ensures Sorted(kept) == log
  {
    SortedSorts(kept);
    OrderUnique(Sorted(kept), log);
  }

  lemma NothingKept(log: seq<Event>)
    ensures Keeps([], log[|log|..])
  {
  }
}
