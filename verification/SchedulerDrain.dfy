/** Every run drains. */
module SchedulerDrain {
  // Once every order has an outcome and nothing fails, every run of promise continuations is
  // finite and ends with everything committed.

  import opened Wrappers
  import opened SchedulerModel
  import opened SchedulerSlots
  import opened SchedulerCommits

  /** Continuations still ahead of the body of an entry. */
  function BodyLeft<T>(e: Entry<T>): nat {
    match e.body
    case NotStarted => if e.ready then 0 else 3
    case Running => 2
    case Settling => 1
    case Released => 0
    case Stuck => 0
  }

  function BodiesLeft<T>(es: seq<Entry<T>>): nat {
    if es == [] then 0 else BodiesLeft(es[..|es| - 1]) + BodyLeft(es[|es| - 1])
  }

  function Measure<T>(s: State<T>): int {
    BodiesLeft(s.entries) + |s.entries| - s.nextCommit
  }

  /** A continuation of a promise that succeeded. */
  predicate Success<T>(a: Action<T>) {
    a.DoBodyFinished? || a.DoSlotSettled? || a.DoCommitFinished?
  }

  /** No promise is outstanding. */
  predicate AtRest<T>(s: State<T>) {
    && (forall i :: 0 <= i < |s.entries| ==> s.entries[i].body != Running && s.entries[i].body != Settling)
    && !s.committing
  }

  function FirstWithoutOutcome<T>(es: seq<Entry<T>>): (r: nat)
    ensures r <= |es|
    ensures forall k :: 0 <= k < r ==> HasOutcome(es[k])
    ensures r < |es| ==> !HasOutcome(es[r])
  {
    if es == [] then 0
    else
      var r := FirstWithoutOutcome(es[..|es| - 1]);
      if r == |es| - 1 && HasOutcome(es[r]) then |es| else r
  }

  // ----- sums -----

  lemma {:induction false} BodiesLeftUpdate<T>(es: seq<Entry<T>>, i: nat, e: Entry<T>)
    requires i < |es|
    ensures BodiesLeft(es[i := e]) == BodiesLeft(es) - BodyLeft(es[i]) + BodyLeft(e)
  {
    var n := |es| - 1;
    if i == n {
      assert es[i := e][..n] == es[..n];
    } else {
      assert es[i := e][..n] == es[..n][i := e];
      BodiesLeftUpdate(es[..n], i, e);
    }
  }

  // ----- starting bodies only helps -----

  /** What the pump does to a state, as far as progress is concerned. */
  ghost predicate Advances<T>(s: State<T>, t: State<T>) {
    && |t.entries| == |s.entries| && t.nextCommit == s.nextCommit && t.failed == s.failed
    && BodiesLeft(t.entries) <= BodiesLeft(s.entries)
    && (forall k :: 0 <= k < |s.entries| ==> HasOutcome(t.entries[k]) == HasOutcome(s.entries[k]))
  }

  lemma {:induction false} PumpSafeAdvances<T>(s: State<T>, index: nat)
    requires index <= |s.entries|
    requires forall k :: 0 <= k < |s.entries| ==> EntryOk(s.entries[k])
    ensures Advances(s, PumpSafe(s, index))
    decreases |s.entries| - index
  {
    hide BodiesLeft;
    if index == |s.entries| || s.runningSafe >= s.cap {
    } else if !IsPending(s.entries[index]) {
      PumpSafeAdvances(s, index + 1);
    } else if s.entries[index].concurrency == Exclusive || !s.entries[index].hasRun {
    } else {
      BodiesLeftUpdate(s.entries, index, s.entries[index].(started := true, body := Running));
      PumpSafeAdvances(StartBody(s.(runningSafe := s.runningSafe + 1), index), index + 1);
    }
  }

  lemma PumpAdvances<T>(s: State<T>)
    requires SlotInv(s)
    ensures Advances(s, Pump(s))
  {
    hide BodiesLeft, Starts, Holders, StartOrder, Barrier, StartLog;
    if s.failed == Undefined && !s.exclusiveRunning {
      var p := FirstPending(s.entries, 0);
      if p < |s.entries| && s.entries[p].hasRun {
        BodiesLeftUpdate(s.entries, p, s.entries[p].(started := true, body := Running));
        PumpSafeAdvances(s, p);
      }
    }
  }

  predicate Progress<T>(s: State<T>, t: State<T>) {
    && |t.entries| == |s.entries| && t.failed == s.failed && Measure(t) < Measure(s)
    && (forall k :: 0 <= k < |s.entries| ==> HasOutcome(t.entries[k]) == HasOutcome(s.entries[k]))
  }

  lemma FinishDecreases<T>(s: State<T>, i: nat, v: T)
    requires SlotInv(s) && i < |s.entries| && s.entries[i].body == Running
    ensures Progress(s, BodyFinished(s, i, v))
  {
    hide BodiesLeft, Starts, Holders, StartOrder, Barrier, StartLog;
    assert EntryOk(s.entries[i]);
    BodiesLeftUpdate(s.entries, i, s.entries[i].(value := Some(v), ready := true, body := Settling));
  }

  lemma ReleaseDecreases<T>(s: State<T>, i: nat)
    requires SlotInv(s) && i < |s.entries| && s.entries[i].body == Settling
    ensures Progress(s, ReleaseSlot(s, i))
  {
    hide BodiesLeft, Starts, Holders, StartOrder, Barrier, StartLog;
    assert EntryOk(s.entries[i]);
    BodiesLeftUpdate(s.entries, i, s.entries[i].(hasRun := false, body := Released));
  }

  lemma SettleDecreases<T>(s: State<T>, i: nat)
    requires SlotInv(s) && i < |s.entries| && s.entries[i].body == Settling
    ensures Progress(s, SlotSettled(s, i))
  {
    hide Slots, Pump;
    var t := ReleaseSlot(s, i);
    ReleaseDecreases(s, i);
    ReleaseKeeps(s, i);
    PumpAdvances(t);
    forall k | 0 <= k < |s.entries| ensures HasOutcome(Pump(t).entries[k]) == HasOutcome(s.entries[k]) {
      assert HasOutcome(t.entries[k]) == HasOutcome(s.entries[k]);
    }
  }

  lemma CommitDecreases<T>(s: State<T>)
    requires s.nextCommit < |s.entries|
    ensures Progress(s, CommitFinished(s))
  {
    hide BodiesLeft;
    BodiesLeftUpdate(s.entries, s.nextCommit, Resolve(s.entries[s.nextCommit]));
  }

  /** The measure, a sum over the entries, falls at every successful continuation, and outcomes stay as they are. */
  lemma SuccessDecreases<T>(s: State<T>, a: Action<T>)
    requires Good(s) && s.failed == Undefined && Enabled(s, a) && Success(a)
    ensures Progress(s, Apply(s, a))
  {
    hide Slots, Commits, Quiet, Progress, Starts, Calls, Dones, BodiesLeft;
    match a
    case DoBodyFinished(i, v) => FinishDecreases(s, i, v);
    case DoSlotSettled(i) => SettleDecreases(s, i);
    case DoCommitFinished => CommitDecreases(s);
  }

  /** A state at rest has committed exactly the orders before the first one without an outcome. */
  lemma RestIsDrained<T>(s: State<T>)
    requires Good(s) && s.failed == Undefined && AtRest(s)
    ensures s.nextCommit == FirstWithoutOutcome(s.entries)
    ensures forall i :: s.nextCommit < i < |s.entries| ==> !s.entries[i].started
    ensures forall i :: 0 <= i < s.nextCommit ==>
      s.entries[i].promise == Resolved(s.entries[i].value) && s.entries[i].body in {NotStarted, Released}
  {
    hide BodiesLeft, Starts, Calls, Dones, Barrier, StartLog;
    var es := s.entries;
    var p := FirstPending(es, 0);
    HoldersZero(es, Safe);
    HoldersZero(es, Exclusive);
    assert forall i :: 0 <= i < |es| ==> EntryOk(es[i]);
    assert p < |es| ==> !es[p].hasRun;
    forall k | 0 <= k < p ensures es[k].ready { assert !IsPending(es[k]); }
    assert s.nextCommit == p;
    var f := FirstWithoutOutcome(es);
    assert p == |es| || !HasOutcome(es[p]);
    assert forall k :: 0 <= k < p ==> HasOutcome(es[k]);
    forall i | p < i < |es| ensures !es[i].started {
      assert IsPending(es[p]);
    }
    assert forall i :: 0 <= i < p ==> PromiseOk(es[i], true, s.failed, true);
  }

  /** The scheduler is at rest exactly when no successful continuation can come. */
  lemma RestIffNoContinuation<T>(s: State<T>, v: T)
    requires Good(s)
    ensures AtRest(s) <==> forall a: Action<T> :: Success(a) ==> !Enabled(s, a)
  {
    if s.committing {
      assert Enabled(s, DoCommitFinished) && Success<T>(DoCommitFinished);
    } else if !AtRest(s) {
      var i :| 0 <= i < |s.entries| && (s.entries[i].body == Running || s.entries[i].body == Settling);
      var a := if s.entries[i].body == Running then DoBodyFinished(i, v) else DoSlotSettled(i);
      assert Enabled(s, a) && Success(a);
    }
  }

  /**
   The drain theorem. Every run of successful continuations has at most `Measure(s)` steps (and
   by `RestIffNoContinuation` it can go on until the scheduler is at rest). At rest the committed
   orders are exactly those before the first order without an outcome: everything if and only if
   every order got one.
   */
  lemma {:induction false} EveryRunDrains<T>(s: State<T>, acts: seq<Action<T>>)
    requires Good(s) && s.failed == Undefined && ValidRun(s, acts) && forall a :: a in acts ==> Success(a)
    ensures |acts| <= Measure(s)
    ensures var t := Run(s, acts);
      && Good(t) && t.failed == Undefined && |t.entries| == |s.entries|
      && (forall k :: 0 <= k < |s.entries| ==> HasOutcome(t.entries[k]) == HasOutcome(s.entries[k]))
      && (AtRest(t) ==> t.nextCommit == FirstWithoutOutcome(t.entries))
      && (AtRest(t) ==> (t.nextCommit == |s.entries| <==>
            forall k :: 0 <= k < |s.entries| ==> HasOutcome(s.entries[k])))
    decreases |acts|
  {
    hide Slots, Commits, Quiet, Starts, Calls, Dones, BodiesLeft, Apply, Enabled;
    if acts == [] {
      assert Measure(s) >= 0 by { NextInRange(s); }
      if AtRest(s) { RestIsDrained(s); }
    } else {
      SuccessDecreases(s, acts[0]);
      StepKeepsGood(s, acts[0]);
      EveryRunDrains(Apply(s, acts[0]), acts[1..]);
    }
  }

  lemma NextInRange<T>(s: State<T>)
    requires Good(s)
    ensures s.nextCommit <= |s.entries|
  {
  }

  /** An order that never gets an outcome stops every later body and every later commit. */
  lemma AbandonedOrderBlocks<T>(cap: nat, acts: seq<Action<T>>, k: nat)
    requires 1 <= cap && ValidRun(Init<T>(cap), acts) && forall a :: a in acts ==> CommitsClean(a)
    requires k < |Run(Init<T>(cap), acts).entries| && !HasOutcome(Run(Init<T>(cap), acts).entries[k])
    ensures var t := Run(Init<T>(cap), acts);
      && |Calls(t.trace)| <= k
      && (forall i :: i in Starts(t.trace) ==> i < k)
  {
    hide BodiesLeft, Starts, Calls, Dones, Barrier, Holders;
    InitSound<T>(cap, false);
    RunKeepsSound(Init<T>(cap), acts, false);
    var t := Run(Init<T>(cap), acts);
    assert EntryOk(t.entries[k]);
    assert forall i :: 0 <= i < |Calls(t.trace)| ==> t.entries[i].ready;
    assert !t.entries[k].started && IsPending(t.entries[k]);
    forall j | k < j < |t.entries| ensures !t.entries[j].started {
      assert IsPending(t.entries[k]);
    }
  }
}
