/** Values traced back. */
module SchedulerOrigins {
  // Every value, resolution, rejection and start of a run is traced back to the call or the promise
  // continuation that gave it, by looking at the actions of the run and not at the steps. Holds on
  // every run, whatever value a promise rejects with.

  import opened Wrappers
  import opened SchedulerModel
  import opened SchedulerSlots

  /** The rejection an action brings. */
  function ErrorOf<T>(a: Action<T>): Option<Thrown> {
    match a
    case DoBodyFailed(_, error) => Some(error)
    case DoSettleFailed(_, error) => Some(error)
    case DoCommitFailed(error) => Some(error)
    case _ => None
  }

  /** What an action may set `failed` to; a rejection with `undefined` sets nothing. */
  function Failure<T>(a: Action<T>): Thrown {
    if ErrorOf(a).Some? then ErrorOf(a).value else Undefined
  }

  ghost predicate Threw<T>(acts: seq<Action<T>>, error: Thrown) {
    exists a :: a in acts && ErrorOf(a) == Some(error)
  }

  /** The first rejection of a run that the scheduler can tell from "not failed". */
  function FirstFailure<T>(acts: seq<Action<T>>): Thrown {
    if acts == [] then Undefined
    else
      var before := FirstFailure(acts[..|acts| - 1]);
      if before != Undefined then before else Failure(acts[|acts| - 1])
  }

  /** The registrations of a run, in order. */
  function Registered<T>(acts: seq<Action<T>>): seq<Concurrency> {
    if acts == [] then []
    else
      var last := acts[|acts| - 1];
      Registered(acts[..|acts| - 1]) + if last.DoRegister? then [last.concurrency] else []
  }

  /** The value was returned by the body of the order, or supplied with `complete`. */
  ghost predicate Supplied<T>(acts: seq<Action<T>>, i: nat, v: T) {
    DoBodyFinished(i, v) in acts || DoComplete(i, v) in acts
  }

  ghost predicate EntryOrigin<T>(e: Entry<T>, i: nat, acts: seq<Action<T>>) {
    && (e.value.Some? <==> e.ready)
    && (e.value.Some? ==> Supplied(acts, i, e.value.value))
    && (e.hasRun || e.started ==> DoExecute(i) in acts)
    && (e.promise.Resolved? ==> e.promise.result == e.value && e.value.Some?)
    && (e.promise.Rejected? ==> Threw(acts, e.promise.error))
  }

  ghost predicate EntriesOrigin<T>(es: seq<Entry<T>>, acts: seq<Action<T>>) {
    forall i :: 0 <= i < |es| ==> EntryOrigin(es[i], i, acts)
  }

  /** A body that returned left its value. */
  ghost predicate Kept<T>(es: seq<Entry<T>>, acts: seq<Action<T>>) {
    forall a :: a in acts && a.DoBodyFinished? ==> a.index < |es| && es[a.index].value == Some(a.value)
  }

  ghost predicate Kinds<T>(es: seq<Entry<T>>, kinds: seq<Concurrency>, failed: bool) {
    && |es| <= |kinds| && (!failed ==> |es| == |kinds|)
    && forall i :: 0 <= i < |es| ==> es[i].concurrency == kinds[i]
  }

  ghost predicate Origins<T>(s: State<T>, acts: seq<Action<T>>) {
    && SlotInv(s)
    && EntriesOrigin(s.entries, acts)
    && Kept(s.entries, acts)
    && Kinds(s.entries, Registered(acts), s.failed != Undefined)
    && s.failed == FirstFailure(acts)
    && (s.committing ==> s.nextCommit < |s.entries| && s.entries[s.nextCommit].ready)
  }

  // ----- what one step does to an entry -----

  /** The pump only starts bodies. */
  ghost predicate OnlyStarts<T>(e: Entry<T>, f: Entry<T>) {
    f == e || (e.hasRun && !e.started && !e.ready && f == e.(started := true, body := Running))
  }

  ghost predicate Pumped<T>(s: State<T>, t: State<T>) {
    && |t.entries| == |s.entries| && t.nextCommit == s.nextCommit && t.committing == s.committing
    && t.failed == s.failed
    && forall i :: 0 <= i < |s.entries| ==> OnlyStarts(s.entries[i], t.entries[i])
  }

  lemma {:induction false} PumpSafePumps<T>(s: State<T>, index: nat)
    requires index <= |s.entries|
    ensures Pumped(s, PumpSafe(s, index))
    ensures forall i :: 0 <= i < index ==> PumpSafe(s, index).entries[i] == s.entries[i]
    decreases |s.entries| - index
  {
    if index == |s.entries| || s.runningSafe >= s.cap {
    } else if !IsPending(s.entries[index]) {
      PumpSafePumps(s, index + 1);
    } else if s.entries[index].concurrency == Exclusive || !s.entries[index].hasRun {
    } else {
      var t := StartBody(s.(runningSafe := s.runningSafe + 1), index);
      PumpSafePumps(t, index + 1);
      var u := PumpSafe(t, index + 1);
      forall i | 0 <= i < |s.entries| ensures OnlyStarts(s.entries[i], u.entries[i]) {
        assert OnlyStarts(t.entries[i], u.entries[i]);
      }
    }
  }

  lemma PumpPumps<T>(s: State<T>)
    ensures Pumped(s, Pump(s))
  {
    if s.failed == Undefined && !s.exclusiveRunning { PumpSafePumps(s, FirstPending(s.entries, 0)); }
  }

  /** What an action may leave in the entry of order `i`. */
  ghost predicate EntryStep<T>(e: Entry<T>, f: Entry<T>, i: nat, a: Action<T>) {
    && f.concurrency == e.concurrency
    && (a.DoBodyFinished? && a.index == i ==> !e.ready && f.ready && f.value == Some(a.value))
    && (a.DoComplete? && a.order == i && !HasOutcome(e) ==> f.ready && f.value == Some(a.value))
    && (!(a.DoBodyFinished? && a.index == i) && !(a.DoComplete? && a.order == i && !HasOutcome(e)) ==>
          f.ready == e.ready && f.value == e.value)
    && (f.hasRun || f.started ==> e.hasRun || e.started || a == DoExecute(i))
    && (HasOutcome(e) || a == DoExecute(i) ==> HasOutcome(f))
    && (f.promise == e.promise
        || (f.promise == Resolved(e.value) && a.DoCommitFinished? && e.ready)
        || (f.promise.Rejected? && ErrorOf(a) == Some(f.promise.error)))
  }

  /** A step as the entries see it; registration may add one at the end. */
  ghost predicate StepOk<T>(s: State<T>, a: Action<T>, t: State<T>) {
    && |s.entries| <= |t.entries|
    && (forall i :: 0 <= i < |s.entries| ==> EntryStep(s.entries[i], t.entries[i], i, a))
    && (forall i :: |s.entries| <= i < |t.entries| ==> a.DoRegister? && t.entries[i] == NewEntry(a.concurrency))
    && |t.entries| == |s.entries| + (if a.DoRegister? && s.failed == Undefined then 1 else 0)
    && t.failed == (if s.failed != Undefined then s.failed else Failure(a))
    && (t.committing ==> t.nextCommit < |t.entries| && t.entries[t.nextCommit].ready)
  }

  /** The commit in flight is that of an entry that is ready. */
  predicate CommitOk<T>(s: State<T>) {
    s.committing ==> s.nextCommit < |s.entries| && s.entries[s.nextCommit].ready
  }

  lemma EntryIsOk<T>(s: State<T>, i: nat)
    requires SlotInv(s) && i < |s.entries|
    ensures EntryOk(s.entries[i])
  {
    hide Starts, Holders, Barrier, StartOrder, StartLog;
  }

  lemma ExecuteStep<T>(s: State<T>, order: nat)
    requires SlotInv(s) && CommitOk(s)
    ensures StepOk(s, DoExecute(order), Execute(s, order))
  {
    hide SlotInv, Pump;
    if Accepts(s, order) {
      var t := SetRun(s, order);
      PumpPumps(t);
      forall i | 0 <= i < |s.entries| ensures EntryStep(s.entries[i], Pump(t).entries[i], i, DoExecute(order)) {
        assert OnlyStarts(t.entries[i], Pump(t).entries[i]);
      }
    } else {
      forall i | 0 <= i < |s.entries| ensures EntryStep(s.entries[i], s.entries[i], i, DoExecute(order)) {}
    }
  }

  lemma CompleteStep<T>(s: State<T>, order: nat, v: T)
    requires SlotInv(s) && CommitOk(s)
    ensures StepOk(s, DoComplete(order, v), Complete(s, order, v))
  {
    hide SlotInv, Pump;
    if Accepts(s, order) {
      var t := CommitReady(SetValue(s, order, v));
      PumpPumps(t);
      forall i | 0 <= i < |s.entries| ensures EntryStep(s.entries[i], Pump(t).entries[i], i, DoComplete(order, v)) {
        assert OnlyStarts(t.entries[i], Pump(t).entries[i]);
      }
      assert CommitOk(t);
      assert Pump(t).committing ==> OnlyStarts(t.entries[t.nextCommit], Pump(t).entries[t.nextCommit]);
    } else {
      forall i | 0 <= i < |s.entries| ensures EntryStep(s.entries[i], s.entries[i], i, DoComplete(order, v)) {}
    }
  }

  lemma SettleStep<T>(s: State<T>, i: nat)
    requires SlotInv(s) && CommitOk(s) && i < |s.entries| && s.entries[i].body == Settling
    ensures StepOk(s, DoSlotSettled(i), SlotSettled(s, i))
  {
    hide SlotInv, Pump;
    EntryIsOk(s, i);
    var t := ReleaseSlot(s, i);
    PumpPumps(t);
    forall k | 0 <= k < |s.entries| ensures EntryStep(s.entries[k], Pump(t).entries[k], k, DoSlotSettled(i)) {
      assert OnlyStarts(t.entries[k], Pump(t).entries[k]);
    }
    assert Pump(t).committing ==> OnlyStarts(t.entries[t.nextCommit], Pump(t).entries[t.nextCommit]);
  }

  lemma FinishStep<T>(s: State<T>, i: nat, v: T)
    requires SlotInv(s) && CommitOk(s) && i < |s.entries| && s.entries[i].body == Running
    ensures StepOk(s, DoBodyFinished(i, v), BodyFinished(s, i, v))
  {
    hide SlotInv;
    EntryIsOk(s, i);
  }

  lemma RegisterStep<T>(s: State<T>, c: Concurrency)
    requires CommitOk(s)
    ensures StepOk(s, DoRegister(c), Register(s, c))
  {
    forall i | 0 <= i < |s.entries| ensures EntryStep(s.entries[i], s.entries[i], i, DoRegister(c)) {}
  }

  lemma CommitStep<T>(s: State<T>)
    requires CommitOk(s) && s.committing
    ensures StepOk(s, DoCommitFinished, CommitFinished(s))
  {
    var t := CommitFinished(s);
    forall i | 0 <= i < |s.entries| ensures EntryStep(s.entries[i], t.entries[i], i, DoCommitFinished) {}
  }

  lemma FailStep<T>(s: State<T>, a: Action<T>)
    requires SlotInv(s) && CommitOk(s) && Enabled(s, a) && ErrorOf(a).Some?
    ensures StepOk(s, a, Apply(s, a))
  {
    hide SlotInv, Register, Execute, Complete, SlotSettled, BodyFinished, CommitFinished;
    if !a.DoCommitFailed? { EntryIsOk(s, a.index); }
    forall i | 0 <= i < |s.entries| ensures EntryStep(s.entries[i], Apply(s, a).entries[i], i, a) {}
  }

  lemma StepIsOk<T>(s: State<T>, a: Action<T>)
    requires SlotInv(s) && CommitOk(s) && Enabled(s, a)
    ensures StepOk(s, a, Apply(s, a))
  {
    hide SlotInv, Register, Execute, Complete, SlotSettled, BodyFinished, CommitFinished, StepOk;
    match a
    case DoRegister(c) => RegisterStep(s, c);
    case DoCommitFinished => CommitStep(s);
    case DoExecute(order) => ExecuteStep(s, order);
    case DoComplete(order, v) => CompleteStep(s, order, v);
    case DoSlotSettled(i) => SettleStep(s, i);
    case DoBodyFinished(i, v) => FinishStep(s, i, v);
    case _ => FailStep(s, a);
  }

  // ----- whole runs -----

  lemma ProjectionsSnoc<T>(past: seq<Action<T>>, a: Action<T>)
    ensures Registered(past + [a]) == Registered(past) + if a.DoRegister? then [a.concurrency] else []
    ensures FirstFailure(past + [a]) ==
            if FirstFailure(past) != Undefined then FirstFailure(past) else Failure(a)
  {
    assert (past + [a])[..|past|] == past;
  }

  lemma EntryOriginStep<T>(e: Entry<T>, f: Entry<T>, i: nat, past: seq<Action<T>>, a: Action<T>)
    requires EntryOrigin(e, i, past) && EntryStep(e, f, i, a)
    ensures EntryOrigin(f, i, past + [a])
  {
    var acts := past + [a];
    assert forall b :: b in past ==> b in acts;
    assert a in acts;
    if e.promise.Rejected? { assert Threw(acts, e.promise.error); }
  }

  lemma EntriesOriginStep<T>(s: State<T>, a: Action<T>, t: State<T>, past: seq<Action<T>>)
    requires Origins(s, past) && Enabled(s, a) && t == Apply(s, a) && StepOk(s, a, t)
    ensures EntriesOrigin(t.entries, past + [a])
  {
    hide SlotInv, EntryStep, EntryOrigin, Kinds, FirstFailure, Registered, Kept,
         Execute, Complete, SlotSettled, BodyFinished, BodyFailed, CommitFailed, CommitLoop;
    forall i | 0 <= i < |t.entries| ensures EntryOrigin(t.entries[i], i, past + [a]) {
      if i < |s.entries| {
        EntryIsOk(s, i);
        assert EntryStep(s.entries[i], t.entries[i], i, a);
        EntryOriginStep(s.entries[i], t.entries[i], i, past, a);
      } else {
        NewEntryOrigin(a.concurrency, i, past + [a]);
      }
    }
  }

  lemma NewEntryOrigin<T>(c: Concurrency, i: nat, acts: seq<Action<T>>)
    ensures EntryOrigin(NewEntry<T>(c), i, acts)
  {
  }

  lemma KeptStep<T>(s: State<T>, a: Action<T>, t: State<T>, past: seq<Action<T>>)
    requires SlotInv(s) && EntriesOrigin(s.entries, past) && Kept(s.entries, past) && Enabled(s, a) && StepOk(s, a, t)
    ensures Kept(t.entries, past + [a])
  {
    hide SlotInv;
    forall b | b in past + [a] && b.DoBodyFinished?
      ensures b.index < |t.entries| && t.entries[b.index].value == Some(b.value)
    {
      EntryIsOk(s, b.index);
      assert EntryStep(s.entries[b.index], t.entries[b.index], b.index, a);
      assert EntryOrigin(s.entries[b.index], b.index, past);
    }
  }

  lemma StepKeepsOrigins<T>(s: State<T>, a: Action<T>, past: seq<Action<T>>)
    requires Origins(s, past) && Enabled(s, a)
    ensures Origins(Apply(s, a), past + [a])
  {
    hide SlotInv, EntriesOrigin, Kept, EntryStep, Apply, Enabled, Registered, FirstFailure;
    var t := Apply(s, a);
    StepKeepsSlots(s, a);
    StepIsOk(s, a);
    ProjectionsSnoc(past, a);
    EntriesOriginStep(s, a, t, past);
    KeptStep(s, a, t, past);
    forall i | 0 <= i < |t.entries| ensures t.entries[i].concurrency == Registered(past + [a])[i] {
      if i < |s.entries| { StepConcurrency(s, a, t, i); }
    }
  }

  lemma StepConcurrency<T>(s: State<T>, a: Action<T>, t: State<T>, i: nat)
    requires StepOk(s, a, t) && i < |s.entries|
    ensures t.entries[i].concurrency == s.entries[i].concurrency
  {
    assert EntryStep(s.entries[i], t.entries[i], i, a);
  }

  lemma {:induction false} RunKeepsOrigins<T>(s: State<T>, acts: seq<Action<T>>, past: seq<Action<T>>)
    requires Origins(s, past) && ValidRun(s, acts)
    ensures Origins(Run(s, acts), past + acts)
    decreases |acts|
  {
    hide Origins, Apply, Enabled;
    if acts == [] {
      assert past + acts == past;
    } else {
      StepKeepsOrigins(s, acts[0], past);
      RunKeepsOrigins(Apply(s, acts[0]), acts[1..], past + [acts[0]]);
      assert past + acts == (past + [acts[0]]) + acts[1..];
    }
  }

  lemma InitOrigins<T>(cap: nat)
    requires 1 <= cap
    ensures Origins(Init<T>(cap), [])
  {
  }

  // ----- the theorems -----

  /**
   Nobody gets the answer of another call: on every run the value of an order, and what its promise
   resolved to, is what the body of that order returned or what `complete` of that order supplied;
   what a body returned is the value of its order; no order has a value before; a promise rejects
   only with something a body, a settle promise or a commit rejected with; and only an executed
   order has a body. Orders keep the concurrency of their registration.
   */
  lemma ValuesAreSupplied<T>(cap: nat, acts: seq<Action<T>>)
    requires 1 <= cap && ValidRun(Init<T>(cap), acts)
    ensures var t := Run(Init<T>(cap), acts);
      forall i: nat | i < |t.entries| ::
        var e := t.entries[i];
        && (forall v :: e.value == Some(v) ==> DoBodyFinished(i, v) in acts || DoComplete(i, v) in acts)
        && (forall v :: DoBodyFinished(i, v) in acts ==> e.value == Some(v))
        && (e.ready <==> e.value.Some?)
        && (e.promise.Resolved? ==> e.promise.result == e.value && e.value.Some?)
        && (e.promise.Rejected? ==> exists a :: a in acts && ErrorOf(a) == Some(e.promise.error))
        && (e.started ==> DoExecute(i) in acts)
        && i < |Registered(acts)| && e.concurrency == Registered(acts)[i]
    ensures Run(Init<T>(cap), acts).failed == FirstFailure(acts)
  {
    hide Run, ValidRun, SlotInv, FirstFailure, Registered;
    InitOrigins<T>(cap);
    RunKeepsOrigins(Init<T>(cap), acts, []);
    assert [] + acts == acts;
    var t := Run(Init<T>(cap), acts);
    forall i: nat | i < |t.entries| ensures EntryOrigin(t.entries[i], i, acts) {}
  }

  /** An outcome is never taken back, and a value never changes. */
  lemma {:induction false} ValueStays<T>(s: State<T>, acts: seq<Action<T>>, past: seq<Action<T>>, i: nat)
    requires Origins(s, past) && ValidRun(s, acts) && i < |s.entries|
    ensures var t := Run(s, acts);
      && i < |t.entries|
      && (s.entries[i].value.Some? ==> t.entries[i].value == s.entries[i].value)
      && (HasOutcome(s.entries[i]) ==> HasOutcome(t.entries[i]))
    decreases |acts|
  {
    hide Origins, Apply, Enabled;
    if acts != [] {
      StepKeepsValue(s, acts[0], past, i);
      StepKeepsOrigins(s, acts[0], past);
      ValueStays(Apply(s, acts[0]), acts[1..], past + [acts[0]], i);
    }
  }

  lemma StepKeepsValue<T>(s: State<T>, a: Action<T>, past: seq<Action<T>>, i: nat)
    requires Origins(s, past) && Enabled(s, a) && i < |s.entries|
    ensures var t := Apply(s, a);
      && i < |t.entries|
      && (s.entries[i].value.Some? ==> t.entries[i].value == s.entries[i].value)
      && (HasOutcome(s.entries[i]) ==> HasOutcome(t.entries[i]))
      && (a.DoBodyFinished? && a.index == i ==> t.entries[i].value == Some(a.value))
      && (a.DoComplete? && a.order == i && !HasOutcome(s.entries[i]) ==> t.entries[i].value == Some(a.value))
      && (a == DoExecute(i) ==> HasOutcome(t.entries[i]))
  {
    hide SlotInv, Apply, Registered, FirstFailure, Kept;
    StepIsOk(s, a);
    EntryIsOk(s, i);
    assert EntryStep(s.entries[i], Apply(s, a).entries[i], i, a);
    assert EntryOrigin(s.entries[i], i, past);
  }

  /**
   What `complete` supplied to an order without an outcome, or its body returned, is its value at
   the end of every run that goes on from there; an order that was executed keeps an outcome.
   */
  lemma SuppliedIsKept<T>(s: State<T>, a: Action<T>, acts: seq<Action<T>>, past: seq<Action<T>>, i: nat)
    requires Origins(s, past) && i < |s.entries| && Enabled(s, a) && ValidRun(Apply(s, a), acts)
    ensures var t := Run(Apply(s, a), acts);
      && i < |t.entries|
      && (forall v :: a == DoBodyFinished(i, v) || (a == DoComplete(i, v) && !HasOutcome(s.entries[i])) ==>
            t.entries[i].value == Some(v))
      && (a == DoExecute(i) ==> HasOutcome(t.entries[i]))
  {
    hide Origins, Apply, Enabled, Run, ValidRun;
    StepKeepsValue(s, a, past, i);
    StepKeepsOrigins(s, a, past);
    ValueStays(Apply(s, a), acts, past + [a], i);
  }
}
