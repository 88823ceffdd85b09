/** Slots, barriers and start order of the bodies. */
module SchedulerSlots {
  // Mutual exclusion, barriers and start order hold on every run, also after a failure and
  // whatever value a promise rejects with.

  import opened Wrappers
  import opened SchedulerModel

  function Weight<T>(e: Entry<T>, c: Concurrency): nat {
    if e.concurrency == c && Holding(e) then 1 else 0
  }

  /** The number of bodies of kind `c` that started and have not released their slot. */
  function Holders<T>(es: seq<Entry<T>>, c: Concurrency): nat {
    if es == [] then 0 else Holders(es[..|es| - 1], c) + Weight(es[|es| - 1], c)
  }

  function Starts<T>(trace: seq<Event<T>>): seq<nat> {
    if trace == [] then []
    else
      var last := trace[|trace| - 1];
      Starts(trace[..|trace| - 1]) + if last.Start? then [last.order] else []
  }

  predicate Ascending(s: seq<nat>) {
    forall i, j :: 0 <= i < j < |s| ==> s[i] < s[j]
  }

  predicate EntryOk<T>(e: Entry<T>) {
    && (e.started <==> e.body != NotStarted)
    && (e.body == Running ==> !e.ready)
    && (e.body == Settling || e.body == Released ==> e.ready)
    && (e.ready ==> e.hasCommit && e.value.Some?)
    && (e.hasRun ==> e.hasCommit)
    && (Holding(e) ==> e.hasRun)
    && (e.hasRun && !e.started ==> !e.ready)
  }

  /** A body starts only when no earlier entry is still waiting to start. */
  predicate StartOrder<T>(es: seq<Entry<T>>) {
    forall i, j :: 0 <= i < j < |es| && es[j].started ==> !IsPending(es[i])
  }

  /** An exclusive body and any other body never overlap: the earlier one has released its slot. */
  predicate Barrier<T>(es: seq<Entry<T>>) {
    forall i, j | 0 <= i < j < |es| && es[i].started && es[j].started ::
      es[i].concurrency == Exclusive || es[j].concurrency == Exclusive ==> es[i].body == Released
  }

  predicate StartLog<T>(es: seq<Entry<T>>, starts: seq<nat>) {
    && Ascending(starts)
    && (forall i :: i in starts ==> i < |es|)
    && (forall i :: 0 <= i < |es| ==> (es[i].started <==> i in starts))
  }

  predicate Slots<T>(cap: nat, es: seq<Entry<T>>, runningSafe: int, exclusive: bool, starts: seq<nat>) {
    && 1 <= cap
    && runningSafe == Holders(es, Safe) <= cap
    && Holders(es, Exclusive) == (if exclusive then 1 else 0)
    && (exclusive ==> runningSafe == 0)
    && (forall i :: 0 <= i < |es| ==> EntryOk(es[i]))
    && StartOrder(es)
    && Barrier(es)
    && StartLog(es, starts)
  }

  predicate SlotInv<T>(s: State<T>) {
    Slots(s.cap, s.entries, s.runningSafe, s.exclusiveRunning, Starts(s.trace))
  }

  // ----- counting -----

  lemma {:induction false} HoldersUpdate<T>(es: seq<Entry<T>>, i: nat, e: Entry<T>, c: Concurrency)
    requires i < |es|
    ensures Holders(es[i := e], c) == Holders(es, c) - Weight(es[i], c) + Weight(e, c)
  {
    var n := |es| - 1;
    if i == n {
      assert es[i := e][..n] == es[..n];
    } else {
      assert es[i := e][..n] == es[..n][i := e];
      HoldersUpdate(es[..n], i, e, c);
    }
  }

  lemma HoldersSnoc<T>(es: seq<Entry<T>>, e: Entry<T>, c: Concurrency)
    ensures Holders(es + [e], c) == Holders(es, c) + Weight(e, c)
  {
    assert (es + [e])[..|es|] == es;
  }

  lemma {:induction false} HoldersPositive<T>(es: seq<Entry<T>>, i: nat, c: Concurrency)
    requires i < |es| && es[i].concurrency == c && Holding(es[i])
    ensures Holders(es, c) >= 1
  {
    if i < |es| - 1 { HoldersPositive(es[..|es| - 1], i, c); }
  }

  lemma {:induction false} HoldersZero<T>(es: seq<Entry<T>>, c: Concurrency)
    requires forall k :: 0 <= k < |es| ==> Weight(es[k], c) == 0
    ensures Holders(es, c) == 0
  {
    if es != [] { HoldersZero(es[..|es| - 1], c); }
  }

  lemma {:induction false} NoHolders<T>(es: seq<Entry<T>>, c: Concurrency)
    requires Holders(es, c) == 0
    ensures forall k :: 0 <= k < |es| ==> Weight(es[k], c) == 0
  {
    if es != [] { NoHolders(es[..|es| - 1], c); }
  }

  lemma {:induction false} HoldersSame<T>(es: seq<Entry<T>>, fs: seq<Entry<T>>, c: Concurrency)
    requires |es| == |fs|
    requires forall k :: 0 <= k < |es| ==> Weight(es[k], c) == Weight(fs[k], c)
    ensures Holders(es, c) == Holders(fs, c)
  {
    if es != [] { HoldersSame(es[..|es| - 1], fs[..|fs| - 1], c); }
  }

  lemma StartsSnoc<T>(trace: seq<Event<T>>, e: Event<T>)
    ensures Starts(trace + [e]) == Starts(trace) + if e.Start? then [e.order] else []
  {
    assert (trace + [e])[..|trace|] == trace;
  }

  // ----- each step keeps the invariant -----

  lemma StartLogGrows<T>(s: State<T>, i: nat)
    requires StartLog(s.entries, Starts(s.trace)) && StartOrder(s.entries)
    requires i < |s.entries| && IsPending(s.entries[i])
    ensures StartLog(StartBody(s, i).entries, Starts(StartBody(s, i).trace))
  {
    StartsSnoc(s.trace, Start(i));
    var starts := Starts(s.trace);
    forall k | 0 <= k < |starts| ensures starts[k] < i {
      assert starts[k] in starts;
    }
  }

  /** No other body holds a slot that would conflict with starting entry `i`. */
  lemma StartKeepsBarrier<T>(es: seq<Entry<T>>, i: nat, e: Entry<T>)
    requires i < |es| && Barrier(es) && StartOrder(es) && IsPending(es[i])
    requires e.concurrency == es[i].concurrency
    requires Holders(es, Exclusive) == 0 && (e.concurrency == Exclusive ==> Holders(es, Safe) == 0)
    ensures Barrier(es[i := e])
  {
    NoHolders(es, Exclusive);
    if e.concurrency == Exclusive { NoHolders(es, Safe); }
    forall k | 0 <= k < i && es[k].started
      ensures es[k].concurrency == Exclusive || e.concurrency == Exclusive ==> es[k].body == Released
    {
      assert Weight(es[k], Exclusive) == 0 && (e.concurrency == Exclusive ==> Weight(es[k], Safe) == 0);
    }
    forall k | i < k < |es| ensures !es[k].started { assert IsPending(es[i]); }
  }

  lemma StartKeepsOrder<T>(es: seq<Entry<T>>, i: nat, e: Entry<T>)
    requires i < |es| && StartOrder(es) && e.started && forall k :: 0 <= k < i ==> !IsPending(es[k])
    ensures StartOrder(es[i := e])
  {
  }

  /** Starting the first pending entry when its slot is free. */
  lemma StartBodyKeeps<T>(s: State<T>, i: nat)
    requires SlotInv(s) && i < |s.entries|
    requires IsPending(s.entries[i]) && s.entries[i].hasRun
    requires forall k :: 0 <= k < i ==> !IsPending(s.entries[k])
    requires !s.exclusiveRunning
    requires s.entries[i].concurrency == Safe ==> s.runningSafe < s.cap
    requires s.entries[i].concurrency == Exclusive ==> s.runningSafe <= 0
    ensures s.entries[i].concurrency == Safe ==> SlotInv(StartBody(s.(runningSafe := s.runningSafe + 1), i))
    ensures s.entries[i].concurrency == Exclusive ==> SlotInv(StartBody(s.(exclusiveRunning := true), i))
  {
    hide Barrier, StartOrder, StartLog, Starts;
    var e := s.entries[i].(started := true, body := Running);
    HoldersUpdate(s.entries, i, e, Safe);
    HoldersUpdate(s.entries, i, e, Exclusive);
    StartLogGrows(s, i);
    StartKeepsBarrier(s.entries, i, e);
    StartKeepsOrder(s.entries, i, e);
  }

  lemma {:induction false} PumpSafeKeeps<T>(s: State<T>, index: nat)
    requires SlotInv(s) && index <= |s.entries| && !s.exclusiveRunning
    requires forall k :: 0 <= k < index ==> !IsPending(s.entries[k])
    ensures SlotInv(PumpSafe(s, index)) && PumpSafe(s, index).cap == s.cap
    decreases |s.entries| - index
  {
    hide Slots, Starts, Holders;
    if index == |s.entries| || s.runningSafe >= s.cap {
    } else if !IsPending(s.entries[index]) {
      PumpSafeKeeps(s, index + 1);
    } else if s.entries[index].concurrency == Exclusive || !s.entries[index].hasRun {
    } else {
      var t := StartBody(s.(runningSafe := s.runningSafe + 1), index);
      StartBodyKeeps(s, index);
      forall k | 0 <= k < index + 1 ensures !IsPending(t.entries[k]) {}
      PumpSafeKeeps(t, index + 1);
    }
  }

  lemma PumpKeeps<T>(s: State<T>)
    requires SlotInv(s)
    ensures SlotInv(Pump(s)) && Pump(s).cap == s.cap
  {
    hide Slots, Starts, Holders, PumpSafe;
    if s.failed == Undefined && !s.exclusiveRunning {
      var pending := FirstPending(s.entries, 0);
      if pending < |s.entries| && s.entries[pending].hasRun {
        if s.entries[pending].concurrency == Safe {
          PumpSafeKeeps(s, pending);
        } else if s.runningSafe <= 0 {
          StartBodyKeeps(s, pending);
        }
      }
    }
  }

  /** Replacing one entry by one with the same slot and start facts. */
  lemma UpdateKeeps<T>(s: State<T>, i: nat, e: Entry<T>)
    requires SlotInv(s) && i < |s.entries|
    requires EntryOk(e) && e.concurrency == s.entries[i].concurrency && e.started == s.entries[i].started
    requires Holding(e) == Holding(s.entries[i])
    requires IsPending(e) ==> IsPending(s.entries[i])
    ensures SlotInv(s.(entries := s.entries[i := e]))
  {
    hide Barrier, StartOrder, StartLog, Starts, Holders;
    HoldersUpdate(s.entries, i, e, Safe);
    HoldersUpdate(s.entries, i, e, Exclusive);
    UpdateKeepsOrder(s.entries, Starts(s.trace), i, e);
  }

  ghost predicate OnlyPromiseDiffers<T>(e: Entry<T>, f: Entry<T>) {
    f == e.(promise := f.promise)
  }

  /** Settling promises does not touch the slots. */
  lemma PromisesKeep<T>(s: State<T>, es: seq<Entry<T>>)
    requires SlotInv(s) && |es| == |s.entries|
    requires forall k :: 0 <= k < |es| ==> OnlyPromiseDiffers(s.entries[k], es[k])
    ensures SlotInv(s.(entries := es))
  {
    hide Starts, Holders;
    HoldersSame(s.entries, es, Safe);
    HoldersSame(s.entries, es, Exclusive);
    assert forall i :: 0 <= i < |es| ==> EntryOk(s.entries[i]) && EntryOk(es[i]);
    assert StartOrder(es) by {
      forall i, j | 0 <= i < j < |es| && es[j].started ensures !IsPending(es[i]) {
        assert OnlyPromiseDiffers(s.entries[i], es[i]) && OnlyPromiseDiffers(s.entries[j], es[j]);
        assert !IsPending(s.entries[i]);
      }
    }
    assert Barrier(es) by {
      forall i, j | 0 <= i < j < |es| && es[i].started && es[j].started
        ensures es[i].concurrency == Exclusive || es[j].concurrency == Exclusive ==> es[i].body == Released
      {
        assert OnlyPromiseDiffers(s.entries[i], es[i]) && OnlyPromiseDiffers(s.entries[j], es[j]);
      }
    }
    assert StartLog(es, Starts(s.trace)) by {
      assert forall i :: 0 <= i < |es| ==> OnlyPromiseDiffers(s.entries[i], es[i]);
    }
  }

  lemma FailKeeps<T>(s: State<T>, error: Thrown)
    requires SlotInv(s)
    ensures SlotInv(Fail(s, error))
  {
    hide Slots, Starts, Holders;
    var es := RejectFrom(s.entries, s.nextCommit, error);
    forall k | 0 <= k < |es| ensures OnlyPromiseDiffers(s.entries[k], es[k]) {}
    PromisesKeep(s, es);
  }

  lemma CommitLoopKeeps<T>(s: State<T>)
    requires SlotInv(s)
    ensures SlotInv(CommitLoop(s))
  {
    hide Slots;
    if CommitDue(s) {
      StartsSnoc(s.trace, CommitCall(s.nextCommit, s.entries[s.nextCommit].value));
      assert Starts(CommitLoop(s).trace) == Starts(s.trace);
    }
  }

  lemma CommitReadyKeeps<T>(s: State<T>)
    requires SlotInv(s)
    ensures SlotInv(CommitReady(s))
  {
    hide Slots, Starts, Holders;
    CommitLoopKeeps(s.(committing := true));
  }

  lemma RegisterKeepsOrder<T>(es: seq<Entry<T>>, starts: seq<nat>, e: Entry<T>)
    requires StartOrder(es) && Barrier(es) && StartLog(es, starts) && !e.started
    ensures StartOrder(es + [e]) && Barrier(es + [e]) && StartLog(es + [e], starts)
  {
  }

  lemma RegisterKeeps<T>(s: State<T>, c: Concurrency)
    requires SlotInv(s)
    ensures Slots(s.cap, s.entries + [NewEntry(c)], s.runningSafe, s.exclusiveRunning, Starts(s.trace))
  {
    hide Barrier, StartOrder, StartLog, Starts, Holders;
    HoldersSnoc(s.entries, NewEntry(c), Safe);
    HoldersSnoc(s.entries, NewEntry(c), Exclusive);
    RegisterKeepsOrder(s.entries, Starts(s.trace), NewEntry(c));
  }

  /** A change of one entry that starts nothing and takes no slot back. */
  lemma UpdateKeepsOrder<T>(es: seq<Entry<T>>, starts: seq<nat>, i: nat, e: Entry<T>)
    requires StartOrder(es) && Barrier(es) && StartLog(es, starts) && i < |es|
    requires e.concurrency == es[i].concurrency && e.started == es[i].started
    requires Holding(e) ==> Holding(es[i])
    requires IsPending(e) ==> IsPending(es[i])
    ensures StartOrder(es[i := e]) && Barrier(es[i := e]) && StartLog(es[i := e], starts)
  {
  }

  lemma ReleaseKeeps<T>(s: State<T>, i: nat)
    requires SlotInv(s) && i < |s.entries| && s.entries[i].body == Settling
    ensures SlotInv(ReleaseSlot(s, i))
  {
    hide Barrier, StartOrder, StartLog;
    var e := s.entries[i].(hasRun := false, body := Released);
    HoldersUpdate(s.entries, i, e, Safe);
    HoldersUpdate(s.entries, i, e, Exclusive);
    HoldersPositive(s.entries, i, e.concurrency);
    StartsSnoc(s.trace, Release(i));
    assert Starts(ReleaseSlot(s, i).trace) == Starts(s.trace);
    UpdateKeepsOrder(s.entries, Starts(s.trace), i, e);
  }

  lemma CommitLandedKeeps<T>(s: State<T>)
    requires SlotInv(s) && s.nextCommit < |s.entries|
    ensures SlotInv(CommitLanded(s))
  {
    hide Slots;
    var es := s.entries[s.nextCommit := Resolve(s.entries[s.nextCommit])];
    forall k | 0 <= k < |es| ensures OnlyPromiseDiffers(s.entries[k], es[k]) {}
    PromisesKeep(s, es);
    StartsSnoc(s.trace, CommitDone(s.nextCommit));
    assert Starts(CommitLanded(s).trace) == Starts(s.trace);
  }

  /** An accepted `execute` stores the callbacks. */
  lemma SetRunKeeps<T>(s: State<T>, order: nat)
    requires SlotInv(s) && Accepts(s, order)
    ensures SlotInv(SetRun(s, order))
  {
    UpdateKeeps(s, order, s.entries[order].(hasRun := true, hasCommit := true));
  }

  /** An accepted `complete` stores the value of an entry that never had a body. */
  lemma SetValueKeeps<T>(s: State<T>, order: nat, v: T)
    requires SlotInv(s) && Accepts(s, order)
    ensures SlotInv(SetValue(s, order, v)) && s.entries[order].body == NotStarted
  {
    UpdateKeeps(s, order, s.entries[order].(value := Some(v), ready := true, hasCommit := true));
  }

  lemma EndBodyKeeps<T>(s: State<T>, i: nat, v: T)
    requires SlotInv(s) && i < |s.entries| && s.entries[i].body == Running
    ensures SlotInv(EndBody(s, i, v)) && s.entries[i].started && !s.entries[i].ready
  {
    UpdateKeeps(s, i, s.entries[i].(value := Some(v), ready := true, body := Settling));
  }

  /** A rejected body or settle promise keeps its slot for ever. */
  lemma StickBodyKeeps<T>(s: State<T>, i: nat)
    requires SlotInv(s) && i < |s.entries| && (s.entries[i].body == Running || s.entries[i].body == Settling)
    ensures SlotInv(StickBody(s, i))
  {
    UpdateKeeps(s, i, s.entries[i].(body := Stuck));
  }

  lemma StepKeepsSlots<T>(s: State<T>, a: Action<T>)
    requires SlotInv(s) && Enabled(s, a)
    ensures SlotInv(Apply(s, a)) && Apply(s, a).cap == s.cap
  {
    hide Slots, Starts, Holders, Pump;
    match a
    case DoRegister(c) => RegisterKeeps(s, c);
    case DoExecute(order) =>
      if Accepts(s, order) {
        SetRunKeeps(s, order);
        PumpKeeps(SetRun(s, order));
      }
    case DoComplete(order, v) =>
      if Accepts(s, order) {
        SetValueKeeps(s, order, v);
        CommitReadyKeeps(SetValue(s, order, v));
        PumpKeeps(CommitReady(SetValue(s, order, v)));
      }
    case DoBodyFinished(i, v) =>
      EndBodyKeeps(s, i, v);
      CommitReadyKeeps(EndBody(s, i, v));
    case DoSlotSettled(i) =>
      ReleaseKeeps(s, i);
      PumpKeeps(ReleaseSlot(s, i));
    case DoCommitFinished =>
      CommitLandedKeeps(s);
      CommitLoopKeeps(CommitLanded(s));
    case DoCommitFailed(err) => FailKeeps(s, err);
    case DoBodyFailed(i, err) =>
      StickBodyKeeps(s, i);
      FailKeeps(StickBody(s, i), err);
    case DoSettleFailed(i, err) =>
      StickBodyKeeps(s, i);
      FailKeeps(StickBody(s, i), err);
  }

  lemma {:induction false} RunKeepsSlots<T>(s: State<T>, acts: seq<Action<T>>)
    requires SlotInv(s) && ValidRun(s, acts)
    ensures SlotInv(Run(s, acts)) && Run(s, acts).cap == s.cap
    decreases |acts|
  {
    hide Slots, Starts, Holders, Apply, Enabled;
    if acts != [] {
      StepKeepsSlots(s, acts[0]);
      RunKeepsSlots(Apply(s, acts[0]), acts[1..]);
    }
  }

  // ----- the theorems -----

  /** Slots on every run: the cap, exclusivity, barriers and the order of starts. */
  lemma SlotsOnEveryRun<T>(cap: nat, acts: seq<Action<T>>)
    requires 1 <= cap && ValidRun(Init<T>(cap), acts)
    ensures var t := Run(Init<T>(cap), acts);
      && t.runningSafe == Holders(t.entries, Safe) <= cap
      && (forall i, j | 0 <= i < |t.entries| && 0 <= j < |t.entries| && i != j ::
            t.entries[i].concurrency == Exclusive && Holding(t.entries[i]) ==> !Holding(t.entries[j]))
      && Barrier(t.entries) && StartOrder(t.entries) && Ascending(Starts(t.trace))
  {
    RunKeepsSlots(Init<T>(cap), acts);
  }

  /** The instant an exclusive body starts: every earlier entry has released its slot or never had a body. */
  lemma ExclusiveStartsAlone<T>(s: State<T>, a: Action<T>, i: nat)
    requires SlotInv(s) && Enabled(s, a) && i < |s.entries| && i < |Apply(s, a).entries|
    requires s.entries[i].concurrency == Exclusive && !s.entries[i].started && Apply(s, a).entries[i].started
    ensures forall j :: 0 <= j < i ==>
      var e := Apply(s, a).entries[j]; e.body == Released || (e.body == NotStarted && e.ready)
    ensures forall j :: i < j < |Apply(s, a).entries| ==> !Apply(s, a).entries[j].started
  {
    StepKeepsSlots(s, a);
    var t := Apply(s, a);
    assert t.entries[i].concurrency == Exclusive && Holding(t.entries[i]) by {
      FreshStartHolds(s, a, i);
    }
    forall j | 0 <= j < i ensures t.entries[j].body == Released || (t.entries[j].body == NotStarted && t.entries[j].ready)
    {
      assert !IsPending(t.entries[j]);
    }
  }

  lemma {:induction false} PumpSafeFresh<T>(s: State<T>, index: nat, i: nat)
    requires index <= |s.entries| && i < |s.entries|
    ensures |PumpSafe(s, index).entries| == |s.entries|
    ensures PumpSafe(s, index).entries[i].concurrency == s.entries[i].concurrency
    ensures !s.entries[i].started && PumpSafe(s, index).entries[i].started ==>
      PumpSafe(s, index).entries[i].body == Running
    ensures s.entries[i].started ==> PumpSafe(s, index).entries[i] == s.entries[i]
    decreases |s.entries| - index
  {
    if index == |s.entries| || s.runningSafe >= s.cap {
    } else if !IsPending(s.entries[index]) {
      PumpSafeFresh(s, index + 1, i);
    } else if s.entries[index].concurrency == Exclusive || !s.entries[index].hasRun {
    } else {
      PumpSafeFresh(StartBody(s.(runningSafe := s.runningSafe + 1), index), index + 1, i);
    }
  }

  lemma PumpFresh<T>(s: State<T>, i: nat)
    requires i < |s.entries|
    ensures |Pump(s).entries| == |s.entries|
    ensures Pump(s).entries[i].concurrency == s.entries[i].concurrency
    ensures !s.entries[i].started && Pump(s).entries[i].started ==> Pump(s).entries[i].body == Running
  {
    PumpSafeFresh(s, FirstPending(s.entries, 0), i);
  }

  /** A body that a step starts is still running when the step ends. */
  lemma FreshStartHolds<T>(s: State<T>, a: Action<T>, i: nat)
    requires Enabled(s, a) && i < |s.entries| && i < |Apply(s, a).entries|
    ensures Apply(s, a).entries[i].concurrency == s.entries[i].concurrency
    ensures !s.entries[i].started && Apply(s, a).entries[i].started ==> Apply(s, a).entries[i].body == Running
  {
    hide Pump;
    match a
    case DoExecute(order) => if Accepts(s, order) { PumpFresh(SetRun(s, order), i); }
    case DoComplete(order, v) => if Accepts(s, order) { PumpFresh(CommitReady(SetValue(s, order, v)), i); }
    case DoSlotSettled(k) => PumpFresh(ReleaseSlot(s, k), i);
    case _ =>
  }
}
