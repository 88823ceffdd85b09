/**
 Windows into a session history, and the order its events are kept in.
 */
module PagingModel {
  datatype Event = Event(number: nat, body: string)

  /** What one read finds: the events, and the revision they were read at. */
  datatype Snapshot = Snapshot(revision: nat, events: seq<Event>)

  datatype Window = Window(revision: nat, events: seq<Event>, earlier: bool, later: bool)

  ghost predicate Increasing(log: seq<Event>) {
    forall i, j :: 0 <= i < j < |log| ==> log[i].number < log[j].number
  }

  /** The first index whose number is at least `n`. */
  function Position(log: seq<Event>, n: nat): (i: nat)
    ensures i <= |log|
  {
    if log == [] || log[0].number >= n then 0 else 1 + Position(log[1..], n)
  }

  /** At most `size` events from index `from` on. */
  function Forward(s: Snapshot, from: nat, size: nat): Window
    requires from <= |s.events|
  {
    var to := if from + size <= |s.events| then from + size else |s.events|;
    Window(s.revision, s.events[from..to], from > 0, to < |s.events|)
  }

  /** At most `size` events that end before index `to`. */
  function Backward(s: Snapshot, to: nat, size: nat): Window
    requires to <= |s.events|
  {
    var from := if size <= to then to - size else 0;
    Window(s.revision, s.events[from..to], from > 0, to < |s.events|)
  }

  /** `readWindow`; a page may hold fewer events than the limit asks for. */
  function Head(s: Snapshot, size: nat): Window {
    Forward(s, 0, size)
  }

  function After(s: Snapshot, number: nat, size: nat): (w: Window)
    ensures w.revision == s.revision
  {
    Forward(s, Position(s.events, number + 1), size)
  }

  function Tail(s: Snapshot, size: nat): Window {
    Backward(s, |s.events|, size)
  }

  function Before(s: Snapshot, number: nat, size: nat): Window {
    Backward(s, Position(s.events, number), size)
  }

  // ----- the map of a backward read, and the sort that ends it -----

  /** `events.set(event.seq, event)`: in place for a known number, at the end otherwise. */
  function Put(kept: seq<Event>, e: Event): seq<Event> {
    if kept == [] then [e]
    else if kept[0].number == e.number then [e] + kept[1..]
    else [kept[0]] + Put(kept[1..], e)
  }

  function PutAll(kept: seq<Event>, page: seq<Event>): seq<Event> {
    if page == [] then kept else Put(PutAll(kept, page[..|page| - 1]), page[|page| - 1])
  }

  function Insert(e: Event, sorted: seq<Event>): seq<Event> {
    if sorted == [] || e.number <= sorted[0].number then [e] + sorted else [sorted[0]] + Insert(e, sorted[1..])
  }

  /** `sort` by number. */
  function Sorted(events: seq<Event>): seq<Event> {
    if events == [] then [] else Insert(events[0], Sorted(events[1..]))
  }
}
