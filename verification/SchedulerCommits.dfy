/** Commits in registration order. */
module SchedulerCommits {
  // Commit order and quietness, on runs in which no commit rejects with `undefined`;
  // `UndefinedRejectionRetriesCommit` shows what goes wrong otherwise. Runs in which nothing at
  // all rejects with `undefined` are called clean.

  import opened Wrappers
  import opened SchedulerModel
  import opened SchedulerSlots

  function Calls<T>(trace: seq<Event<T>>): seq<(nat, Option<T>)> {
    if trace == [] then []
    else
      var last := trace[|trace| - 1];
      Calls(trace[..|trace| - 1]) + if last.CommitCall? then [(last.order, last.value)] else []
  }

  function Dones<T>(trace: seq<Event<T>>): seq<nat> {
    if trace == [] then []
    else
      var last := trace[|trace| - 1];
      Dones(trace[..|trace| - 1]) + if last.CommitDone? then [last.order] else []
  }

  lemma ProjectionsSnoc<T>(trace: seq<Event<T>>, e: Event<T>)
    ensures Calls(trace + [e]) == Calls(trace) + if e.CommitCall? then [(e.order, e.value)] else []
    ensures Dones(trace + [e]) == Dones(trace) + if e.CommitDone? then [e.order] else []
  {
    assert (trace + [e])[..|trace|] == trace;
  }

  // ----- the invariant -----

  /** What the caller of an order has been told; only in runs that are not clean a rejection leaves `failed` unset. */
  ghost predicate PromiseOk<T>(e: Entry<T>, committed: bool, failed: Thrown, clean: bool) {
    match e.promise
    case Pending => !committed && failed == Undefined
    case Resolved(v) => committed && v == e.value
    case Rejected(error) => if error == Undefined then !clean else error == failed
  }

  ghost predicate Commits<T>(es: seq<Entry<T>>, next: nat, committing: bool, failed: Thrown,
                             calls: seq<(nat, Option<T>)>, dones: seq<nat>, clean: bool)
  {
    && next <= |es|
    && |dones| == next && (forall k :: 0 <= k < next ==> dones[k] == k)
    && next <= |calls| <= next + 1 && |calls| <= |es|
    && (forall k :: 0 <= k < |calls| ==> calls[k] == (k, es[k].value) && es[k].ready)
    && (committing ==> |calls| == next + 1)
    && (!committing && failed == Undefined ==> |calls| == next)
    && (!committing && failed == Undefined && next < |es| ==> !es[next].ready)
    && (forall i :: 0 <= i < |es| ==> PromiseOk(es[i], i < next, failed, clean))
    && (clean && failed == Undefined ==> forall i :: 0 <= i < |es| ==> es[i].body != Stuck)
  }

  ghost predicate CommitInv<T>(s: State<T>, clean: bool) {
    Commits(s.entries, s.nextCommit, s.committing, s.failed, Calls(s.trace), Dones(s.trace), clean)
  }

  /** No start is due. */
  predicate Quiet<T>(s: State<T>) {
    s.failed != Undefined || s.exclusiveRunning ||
    var p := FirstPending(s.entries, 0);
    p == |s.entries| || !s.entries[p].hasRun ||
    if s.entries[p].concurrency == Exclusive then s.runningSafe > 0 else s.runningSafe >= s.cap
  }

  ghost predicate Sound<T>(s: State<T>, clean: bool) {
    SlotInv(s) && CommitInv(s, clean) && Quiet(s)
  }

  /** The invariant of clean runs. */
  ghost predicate Good<T>(s: State<T>) {
    Sound(s, true)
  }

  predicate Clean<T>(a: Action<T>) {
    match a
    case DoBodyFailed(_, err) => err != Undefined
    case DoSettleFailed(_, err) => err != Undefined
    case DoCommitFailed(err) => err != Undefined
    case _ => true
  }

  /** No commit rejects with `undefined`. */
  predicate CommitsClean<T>(a: Action<T>) {
    a.DoCommitFailed? ==> a.error != Undefined
  }

  // ----- the pump and commits -----

  ghost predicate CommitSame<T>(e: Entry<T>, f: Entry<T>) {
    && f.ready == e.ready && f.value == e.value && f.promise == e.promise
    && (f.body == Stuck ==> e.body == Stuck)
  }

  /** A change of entries and trace that commits do not see. */
  ghost predicate Unseen<T>(s: State<T>, t: State<T>) {
    && t.nextCommit == s.nextCommit && t.committing == s.committing && t.failed == s.failed
    && |t.entries| == |s.entries|
    && (forall k :: 0 <= k < |s.entries| ==> CommitSame(s.entries[k], t.entries[k]))
    && Calls(t.trace) == Calls(s.trace) && Dones(t.trace) == Dones(s.trace)
  }

  lemma UnseenKeeps<T>(s: State<T>, t: State<T>, clean: bool)
    requires CommitInv(s, clean) && Unseen(s, t)
    ensures CommitInv(t, clean)
  {
    hide Calls, Dones;
    assert forall k :: 0 <= k < |s.entries| ==> CommitSame(s.entries[k], t.entries[k]);
    forall i | 0 <= i < |t.entries| ensures PromiseOk(t.entries[i], i < t.nextCommit, t.failed, clean) {
      assert PromiseOk(s.entries[i], i < s.nextCommit, s.failed, clean);
    }
  }

  lemma {:induction false} PumpSafeUnseen<T>(s: State<T>, index: nat)
    requires index <= |s.entries|
    ensures Unseen(s, PumpSafe(s, index))
    decreases |s.entries| - index
  {
    hide Calls, Dones;
    if index == |s.entries| || s.runningSafe >= s.cap {
    } else if !IsPending(s.entries[index]) {
      PumpSafeUnseen(s, index + 1);
    } else if s.entries[index].concurrency == Exclusive || !s.entries[index].hasRun {
    } else {
      ProjectionsSnoc(s.trace, Start(index));
      var t := StartBody(s.(runningSafe := s.runningSafe + 1), index);
      PumpSafeUnseen(t, index + 1);
      var u := PumpSafe(t, index + 1);
      forall k | 0 <= k < |s.entries| ensures CommitSame(s.entries[k], u.entries[k]) {
        assert CommitSame(t.entries[k], u.entries[k]);
      }
    }
  }

  lemma PumpUnseen<T>(s: State<T>)
    ensures Unseen(s, Pump(s))
  {
    hide Calls, Dones;
    if s.failed == Undefined && !s.exclusiveRunning {
      var p := FirstPending(s.entries, 0);
      if p < |s.entries| && s.entries[p].hasRun {
        ProjectionsSnoc(s.trace, Start(p));
        PumpSafeUnseen(s, p);
      }
    }
  }

  lemma {:induction false} FirstPendingIs<T>(es: seq<Entry<T>>, from: nat, p: nat)
    requires from <= p <= |es|
    requires forall k :: from <= k < p ==> !IsPending(es[k])
    requires p < |es| ==> IsPending(es[p])
    ensures FirstPending(es, from) == p
    decreases p - from
  {
    if from < p { FirstPendingIs(es, from + 1, p); }
  }

  lemma {:induction false} PumpSafeQuiet<T>(s: State<T>, index: nat)
    requires index <= |s.entries| && 1 <= s.cap && s.failed == Undefined && !s.exclusiveRunning
    requires forall k :: 0 <= k < index ==> !IsPending(s.entries[k])
    requires 0 <= s.runningSafe
    requires s.runningSafe >= 1 ||
             (index < |s.entries| && IsPending(s.entries[index]) && s.entries[index].concurrency == Safe)
    ensures Quiet(PumpSafe(s, index))
    decreases |s.entries| - index
  {
    if index == |s.entries| {
      FirstPendingIs(s.entries, 0, index);
    } else if s.runningSafe >= s.cap {
    } else if !IsPending(s.entries[index]) {
      PumpSafeQuiet(s, index + 1);
    } else if s.entries[index].concurrency == Exclusive || !s.entries[index].hasRun {
      FirstPendingIs(s.entries, 0, index);
    } else {
      PumpSafeQuiet(StartBody(s.(runningSafe := s.runningSafe + 1), index), index + 1);
    }
  }

  lemma PumpQuiet<T>(s: State<T>)
    requires SlotInv(s)
    ensures Quiet(Pump(s))
  {
    if s.failed == Undefined && !s.exclusiveRunning {
      var p := FirstPending(s.entries, 0);
      if p < |s.entries| && s.entries[p].hasRun && s.entries[p].concurrency == Safe {
        if s.runningSafe < s.cap { PumpSafeQuiet(s, p); }
      }
    }
  }

  /** A quiet state is exactly a fixpoint of the pump. */
  lemma QuietIsFixpoint<T>(s: State<T>)
    requires 1 <= s.cap
    ensures Quiet(s) <==> Pump(s) == s
  {
    if s.failed == Undefined && !s.exclusiveRunning {
      var p := FirstPending(s.entries, 0);
      if p < |s.entries| && s.entries[p].hasRun && s.entries[p].concurrency == Safe && s.runningSafe < s.cap {
        PumpSafeFresh(StartBody(s.(runningSafe := s.runningSafe + 1), p), p + 1, p);
        assert PumpSafe(s, p).entries[p].started;
      }
    }
  }

  /** Quiet is kept when entries only change in ways the pump does not look at. */
  lemma QuietKept<T>(s: State<T>, t: State<T>)
    requires Quiet(s) && |t.entries| == |s.entries|
    requires t.failed == s.failed && t.exclusiveRunning == s.exclusiveRunning
    requires t.runningSafe == s.runningSafe && t.cap == s.cap
    requires forall k :: 0 <= k < |s.entries| ==>
      && IsPending(t.entries[k]) == IsPending(s.entries[k]) && t.entries[k].hasRun == s.entries[k].hasRun
      && t.entries[k].concurrency == s.entries[k].concurrency
    ensures Quiet(t)
  {
    FirstPendingIs(t.entries, 0, FirstPending(s.entries, 0));
  }

  // ----- each step keeps the invariant -----

  /** The commit loop finds its invariant again once the entries are updated. */
  ghost predicate AtLoop<T>(s: State<T>, clean: bool) {
    && s.nextCommit <= |s.entries|
    && Dones(s.trace) == seq(s.nextCommit, k => k)
    && |Calls(s.trace)| == s.nextCommit
    && (forall k :: 0 <= k < s.nextCommit ==>
          Calls(s.trace)[k] == (k, s.entries[k].value) && s.entries[k].ready)
    && (forall i :: 0 <= i < |s.entries| ==> PromiseOk(s.entries[i], i < s.nextCommit, s.failed, clean))
    && (clean && s.failed == Undefined ==> forall i :: 0 <= i < |s.entries| ==> s.entries[i].body != Stuck)
  }

  lemma CommitLoopKeepsCommits<T>(s: State<T>, clean: bool)
    requires SlotInv(s) && AtLoop(s, clean) && s.committing
    ensures CommitInv(CommitLoop(s), clean)
  {
    if CommitDue(s) {
      ProjectionsSnoc(s.trace, CommitCall(s.nextCommit, s.entries[s.nextCommit].value));
    } else if s.nextCommit < |s.entries| {
      assert EntryOk(s.entries[s.nextCommit]);
    }
  }

  /** An entry becomes ready, then `#commitReady` runs. */
  lemma ReadyKeepsCommits<T>(s: State<T>, t: State<T>, i: nat, clean: bool)
    requires CommitInv(s, clean) && i < |s.entries| && SlotInv(t)
    requires |t.entries| == |s.entries| && t == s.(entries := s.entries[i := t.entries[i]])
    requires !s.entries[i].ready && t.entries[i].ready
    requires t.entries[i].promise == s.entries[i].promise && t.entries[i].body != Stuck
    ensures CommitInv(CommitReady(t), clean)
  {
    hide Slots;
    forall k | 0 <= k < |t.entries| ensures PromiseOk(t.entries[k], k < t.nextCommit, t.failed, clean) {
      assert PromiseOk(s.entries[k], k < s.nextCommit, s.failed, clean);
    }
    if !s.committing && s.failed == Undefined {
      assert Dones(s.trace) == seq(s.nextCommit, k => k);
      CommitLoopKeepsCommits(t.(committing := true), clean);
    }
  }

  lemma FailKeepsCommits<T>(s: State<T>, t: State<T>, error: Thrown, clean: bool)
    requires CommitInv(s, clean) && (error == Undefined ==> !clean)
    requires t == s.(entries := t.entries) && |t.entries| == |s.entries|
    requires forall k :: 0 <= k < |s.entries| ==>
      t.entries[k].ready == s.entries[k].ready && t.entries[k].value == s.entries[k].value &&
      t.entries[k].promise == s.entries[k].promise
    ensures CommitInv(Fail(t, error), clean)
    ensures error != Undefined ==> CommitInv(Fail(t, error).(committing := false), clean)
  {
    forall k | 0 <= k < |t.entries|
      ensures PromiseOk(Fail(t, error).entries[k], k < t.nextCommit, Fail(t, error).failed, clean)
    {
      assert PromiseOk(s.entries[k], k < s.nextCommit, s.failed, clean);
    }
  }

  lemma CommitLandedAtLoop<T>(s: State<T>, clean: bool)
    requires CommitInv(s, clean) && s.committing && s.nextCommit < |s.entries|
    ensures AtLoop(CommitLanded(s), clean)
  {
    var n := s.nextCommit;
    var t := CommitLanded(s);
    ProjectionsSnoc(s.trace, CommitDone(n));
    assert Dones(s.trace) + [n] == seq(n + 1, k => k);
    forall k | 0 <= k < |t.entries| ensures PromiseOk(t.entries[k], k < n + 1, s.failed, clean) {
      assert PromiseOk(s.entries[k], k < n, s.failed, clean);
    }
  }

  lemma RegisterKeepsCommits<T>(s: State<T>, c: Concurrency, clean: bool)
    requires CommitInv(s, clean) && s.failed == Undefined
    ensures CommitInv(Register(s, c), clean)
  {
    var t := Register(s, c);
    forall i | 0 <= i < |t.entries| ensures PromiseOk(t.entries[i], i < t.nextCommit, t.failed, clean) {
      if i < |s.entries| { assert PromiseOk(s.entries[i], i < s.nextCommit, s.failed, clean); }
    }
  }

  lemma RegisterKeepsSound<T>(s: State<T>, c: Concurrency, clean: bool)
    requires Sound(s, clean)
    ensures Sound(Register(s, c), clean)
  {
    hide Slots, Commits;
    RegisterKeeps(s, c);
    if s.failed == Undefined {
      RegisterKeepsCommits(s, c, clean);
      FirstPendingIs(Register(s, c).entries, 0, FirstPending(s.entries, 0));
    }
  }

  /** After a slot or an outcome changed, the pump restores the invariant. */
  lemma PumpKeepsSound<T>(s: State<T>, clean: bool)
    requires SlotInv(s) && CommitInv(s, clean)
    ensures Sound(Pump(s), clean)
  {
    hide Slots, Commits, Quiet, Pump;
    PumpKeeps(s);
    PumpUnseen(s);
    UnseenKeeps(s, Pump(s), clean);
    PumpQuiet(s);
  }

  lemma ExecuteKeepsSound<T>(s: State<T>, order: nat, clean: bool)
    requires Sound(s, clean) && Accepts(s, order)
    ensures Sound(Execute(s, order), clean)
  {
    hide Slots, Commits, Quiet, Pump;
    SetRunKeeps(s, order);
    UnseenKeeps(s, SetRun(s, order), clean);
    PumpKeepsSound(SetRun(s, order), clean);
  }

  lemma CompleteKeepsSound<T>(s: State<T>, order: nat, v: T, clean: bool)
    requires Sound(s, clean) && Accepts(s, order)
    ensures Sound(Complete(s, order, v), clean)
  {
    hide Slots, Commits, Quiet, Pump;
    SetValueKeeps(s, order, v);
    ReadyKeepsCommits(s, SetValue(s, order, v), order, clean);
    CommitReadyKeeps(SetValue(s, order, v));
    PumpKeepsSound(CommitReady(SetValue(s, order, v)), clean);
  }

  lemma BodyFinishedKeepsSound<T>(s: State<T>, i: nat, v: T, clean: bool)
    requires Sound(s, clean) && i < |s.entries| && s.entries[i].body == Running
    ensures Sound(BodyFinished(s, i, v), clean)
  {
    hide Slots, Commits, Quiet, CommitReady;
    EndBodyKeeps(s, i, v);
    CommitReadyKeeps(EndBody(s, i, v));
    ReadyKeepsCommits(s, EndBody(s, i, v), i, clean);
    BodyFinishedQuiet(s, i, v);
  }

  lemma BodyFinishedQuiet<T>(s: State<T>, i: nat, v: T)
    requires Quiet(s) && i < |s.entries| && s.entries[i].started
    ensures Quiet(BodyFinished(s, i, v))
  {
    QuietKept(s, BodyFinished(s, i, v));
  }

  lemma ReleaseUnseen<T>(s: State<T>, i: nat)
    requires i < |s.entries|
    ensures Unseen(s, ReleaseSlot(s, i))
  {
    ProjectionsSnoc(s.trace, Release(i));
  }

  lemma SlotSettledKeepsSound<T>(s: State<T>, i: nat, clean: bool)
    requires Sound(s, clean) && i < |s.entries| && s.entries[i].body == Settling
    ensures Sound(SlotSettled(s, i), clean)
  {
    hide Slots, Commits, Quiet, Pump, Unseen;
    ReleaseKeeps(s, i);
    ReleaseUnseen(s, i);
    UnseenKeeps(s, ReleaseSlot(s, i), clean);
    PumpKeepsSound(ReleaseSlot(s, i), clean);
  }

  lemma FailKeepsSound<T>(s: State<T>, a: Action<T>, clean: bool)
    requires Sound(s, clean) && Enabled(s, a) && CommitsClean(a) && (clean ==> Clean(a))
    requires a.DoBodyFailed? || a.DoSettleFailed? || a.DoCommitFailed?
    ensures Sound(Apply(s, a), clean)
  {
    hide Slots, Commits, Quiet;
    StepKeepsSlots(s, a);
    FailKeepsCommits(s, if a.DoCommitFailed? then s else StickBody(s, a.index), a.error, clean);
    if a.DoCommitFailed? {
      FailedQuiet(CommitFailed(s, a.error));
    } else {
      StartedBody(s, a.index);
      BodyFailedQuiet(s, a.index, a.error);
    }
  }

  lemma StartedBody<T>(s: State<T>, i: nat)
    requires SlotInv(s) && i < |s.entries| && s.entries[i].body in {Running, Settling}
    ensures s.entries[i].started
  {
    assert EntryOk(s.entries[i]);
  }

  lemma FailedQuiet<T>(s: State<T>)
    requires s.failed != Undefined
    ensures Quiet(s)
  {
  }

  /** A body that failed was started, so the pump sees no difference. */
  lemma BodyFailedQuiet<T>(s: State<T>, i: nat, error: Thrown)
    requires Quiet(s) && i < |s.entries| && s.entries[i].started
    ensures Quiet(BodyFailed(s, i, error))
  {
    if BodyFailed(s, i, error).failed == Undefined { QuietKept(s, BodyFailed(s, i, error)); }
  }

  lemma CommitFinishedKeepsSound<T>(s: State<T>, clean: bool)
    requires Sound(s, clean) && s.committing && s.nextCommit < |s.entries|
    ensures Sound(CommitFinished(s), clean)
  {
    hide Slots, Commits, Quiet, AtLoop, CommitLoop;
    CommitLandedKeeps(s);
    CommitLandedAtLoop(s, clean);
    CommitLoopKeeps(CommitLanded(s));
    CommitLoopKeepsCommits(CommitLanded(s), clean);
    CommitFinishedQuiet(s);
  }

  lemma CommitFinishedQuiet<T>(s: State<T>)
    requires Quiet(s) && s.nextCommit < |s.entries|
    ensures Quiet(CommitFinished(s))
  {
    QuietKept(s, CommitFinished(s));
  }

  lemma StepKeepsSound<T>(s: State<T>, a: Action<T>, clean: bool)
    requires Sound(s, clean) && Enabled(s, a) && CommitsClean(a) && (clean ==> Clean(a))
    ensures Sound(Apply(s, a), clean)
  {
    hide Slots, Commits, Quiet;
    match a
    case DoRegister(c) => RegisterKeepsSound(s, c, clean);
    case DoExecute(order) => if Accepts(s, order) { ExecuteKeepsSound(s, order, clean); }
    case DoComplete(order, v) => if Accepts(s, order) { CompleteKeepsSound(s, order, v, clean); }
    case DoBodyFinished(i, v) => BodyFinishedKeepsSound(s, i, v, clean);
    case DoSlotSettled(i) => SlotSettledKeepsSound(s, i, clean);
    case DoCommitFinished => CommitFinishedKeepsSound(s, clean);
    case _ => FailKeepsSound(s, a, clean);
  }

  lemma StepKeepsGood<T>(s: State<T>, a: Action<T>)
    requires Good(s) && Enabled(s, a) && Clean(a)
    ensures Good(Apply(s, a))
  {
    hide Sound;
    StepKeepsSound(s, a, true);
  }

  lemma RegisterKeepsGood<T>(s: State<T>, c: Concurrency)
    requires Good(s)
    ensures Good(Register(s, c))
  {
    hide Sound;
    RegisterKeepsSound(s, c, true);
  }

  lemma ExecuteKeepsGood<T>(s: State<T>, order: nat)
    requires Good(s) && Accepts(s, order)
    ensures Good(Execute(s, order))
  {
    hide Sound;
    ExecuteKeepsSound(s, order, true);
  }

  lemma CompleteKeepsGood<T>(s: State<T>, order: nat, v: T)
    requires Good(s) && Accepts(s, order)
    ensures Good(Complete(s, order, v))
  {
    hide Sound;
    CompleteKeepsSound(s, order, v, true);
  }

  lemma InitSound<T>(cap: nat, clean: bool)
    requires 1 <= cap
    ensures Sound(Init<T>(cap), clean)
  {
  }

  lemma InitGood<T>(cap: nat)
    requires 1 <= cap
    ensures Good(Init<T>(cap))
  {
    hide Sound;
    InitSound<T>(cap, true);
  }

  lemma {:induction false} RunKeepsSound<T>(s: State<T>, acts: seq<Action<T>>, clean: bool)
    requires Sound(s, clean) && ValidRun(s, acts)
    requires forall a :: a in acts ==> CommitsClean(a) && (clean ==> Clean(a))
    ensures Sound(Run(s, acts), clean)
    decreases |acts|
  {
    hide Sound, Apply, Enabled, Clean, CommitsClean;
    if acts != [] {
      StepKeepsSound(s, acts[0], clean);
      RunKeepsSound(Apply(s, acts[0]), acts[1..], clean);
    }
  }

  // ----- the theorems -----

  /**
   Commits on every run in which no commit rejects with `undefined`, whatever bodies and settle
   promises reject with: called in order 0, 1, 2, ..., each once and with its own entry's value, at
   most one in flight; the successful ones are the prefix below `nextCommit`; a promise resolves
   only for a committed order, with its value, and otherwise rejects with the failure that stopped
   the scheduler, or with `undefined` if a body did. Without a failure there is nothing left to do.
   */
  lemma CommitsOnEveryRun<T>(cap: nat, acts: seq<Action<T>>)
    requires 1 <= cap && ValidRun(Init<T>(cap), acts) && forall a :: a in acts ==> CommitsClean(a)
    ensures var t := Run(Init<T>(cap), acts);
      && Dones(t.trace) == seq(t.nextCommit, k => k)
      && t.nextCommit <= |Calls(t.trace)| <= t.nextCommit + 1 && |Calls(t.trace)| <= |t.entries|
      && (forall k :: 0 <= k < |Calls(t.trace)| ==>
            Calls(t.trace)[k] == (k, t.entries[k].value) && t.entries[k].ready)
      && (forall i :: 0 <= i < |t.entries| ==>
            PromiseOk(t.entries[i], i < t.nextCommit, t.failed, forall a :: a in acts ==> Clean(a)))
    ensures var t := Run(Init<T>(cap), acts);
      t.failed == Undefined ==> Pump(t) == t && (!t.committing ==> CommitLoop(t) == t)
  {
    hide Run, ValidRun, Clean, CommitsClean;
    var clean := forall a :: a in acts ==> Clean(a);
    InitSound<T>(cap, clean);
    RunKeepsSound(Init<T>(cap), acts, clean);
    var t := Run(Init<T>(cap), acts);
    QuietIsFixpoint(t);
  }

  /**
   A commit that rejected is called a second time by the next `#commitReady` exactly when it
   rejected with `undefined`, because `#failed` then still reads as "not failed".
   */
  lemma UndefinedRejectionRetriesCommit<T>(s: State<T>, error: Thrown, clean: bool)
    requires Sound(s, clean) && s.committing && s.failed == Undefined
    ensures var t := CommitFailed(s, error);
      Calls(CommitReady(t).trace) == Calls(s.trace) + [Calls(s.trace)[s.nextCommit]] <==> error == Undefined
  {
    var t := CommitFailed(s, error);
    assert s.entries[s.nextCommit].ready;
    assert EntryOk(s.entries[s.nextCommit]);
    ProjectionsSnoc(t.trace, CommitCall(s.nextCommit, s.entries[s.nextCommit].value));
    assert |Calls(s.trace)| == s.nextCommit + 1;
  }
}
