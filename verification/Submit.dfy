/** The queue between the threads that prepare transactions and the store
    (internal.cpp): `prepare` appends under the queue lock; `submit` is done by
    whichever thread gets the submit lock, for everyone. */
module Submit {
  import opened Base

  /** Where a thread is. InPrepare to Leaving hold the queue lock, Looking to
      Handing the submit lock. */
  datatype Pc<T> =
    | Idle
    | Preparing(txn: T)
    | InPrepare(txn: T)
    | Calling
    | Looking
    | AtQueue
    | Emptied
    | Swapped(batch: seq<T>)
    | Handing(batch: seq<T>)
    | Leaving

  datatype State<T> = State(
    threads: map<nat, Pc<T>>,
    queueLock: Option<nat>,
    submitLock: Option<nat>,
    queue: seq<T>,
    handed: seq<T>,     // what the store has been given, in order
    prepared: seq<T>,   // what has been prepared, in order
    asked: nat)         // how many were prepared when submit() was last called

  datatype Step<T> =
    | Prepare(id: nat, txn: T)
    | Submit(id: nat)
    | Go(id: nat)

  predicate Enabled<T>(s: State<T>, step: Step<T>) {
    && step.id in s.threads
    && match step
       case Prepare(id, _) => s.threads[id].Idle?
       case Submit(id) => s.threads[id].Idle?
       case Go(id) =>
         match s.threads[id]
         case Idle => false
         case Preparing(_) => s.queueLock == None
         case Looking => s.queueLock == None
         case _ => true
  }

  function At<T>(s: State<T>, id: nat, pc: Pc<T>): State<T> { s.(threads := s.threads[id := pc]) }

  /** What a thread does next, up to the next point where another may come in between. */
  function Do<T>(s: State<T>, step: Step<T>): State<T>
    requires Enabled(s, step)
  {
    var id := step.id;
    match step
    case Prepare(_, txn) => At(s, id, Preparing(txn))
    case Submit(_) => At(s, id, Calling)
    case Go(_) =>
      match s.threads[id]
      case Idle => s
      case Preparing(txn) => At(s.(queueLock := Some(id)), id, InPrepare(txn))
      case InPrepare(txn) => At(s.(queue := s.queue + [txn], prepared := s.prepared + [txn]), id, Leaving)
      case Calling =>
        var t := s.(asked := |s.prepared|);
        if s.submitLock == None then At(t.(submitLock := Some(id)), id, Looking) else At(t, id, Idle)
      case Looking => At(s.(queueLock := Some(id)), id, AtQueue)
      case AtQueue =>
        if |s.queue| == 0 then At(s, id, Emptied)
        else At(s.(queue := []), id, Swapped(s.queue))
      case Emptied => At(s.(submitLock := None), id, Leaving)
      case Swapped(batch) => At(s.(queueLock := None), id, Handing(batch))
      case Handing(batch) =>
        if |batch| == 0 then At(s, id, Looking)
        else At(s.(handed := s.handed + [batch[0]]), id, Handing(batch[1..]))
      case Leaving => At(s.(queueLock := None), id, Idle)
  }

  predicate HasQueueLock<T>(pc: Pc<T>) { pc.InPrepare? || pc.AtQueue? || pc.Emptied? || pc.Swapped? || pc.Leaving? }

  predicate HasSubmitLock<T>(pc: Pc<T>) { pc.Looking? || pc.AtQueue? || pc.Emptied? || pc.Swapped? || pc.Handing? }

  /** What the thread with the submit lock has taken out of the queue and not handed over. */
  function InHand<T>(s: State<T>): seq<T> {
    if s.submitLock.Some? && s.submitLock.value in s.threads then
      match s.threads[s.submitLock.value]
      case Swapped(batch) => batch
      case Handing(batch) => batch
      case _ => []
    else []
  }

  ghost predicate Inv<T>(s: State<T>) {
    && Locks(s)
    && s.handed + InHand(s) + s.queue == s.prepared
    && s.asked <= |s.prepared|
    && (s.submitLock == None ==> s.asked <= |s.handed|)
  }

  ghost predicate Init<T>(s: State<T>) {
    && (forall id :: id in s.threads ==> s.threads[id].Idle?)
    && s.queueLock == None && s.submitLock == None && s.queue == [] && s.handed == [] && s.prepared == [] && s.asked == 0
  }

  /** Who holds which lock, and what only holders know. */
  ghost predicate Locks<T>(s: State<T>) {
    && (forall id :: id in s.threads ==> (HasQueueLock(s.threads[id]) <==> s.queueLock == Some(id)))
    && (forall id :: id in s.threads ==> (HasSubmitLock(s.threads[id]) <==> s.submitLock == Some(id)))
    && (s.submitLock.Some? ==> s.submitLock.value in s.threads)
    && (forall id :: id in s.threads && s.threads[id].Emptied? ==> s.queue == [])
  }

  lemma KeepsLocks<T>(s: State<T>, step: Step<T>)
    requires Locks(s) && Enabled(s, step)
    ensures Locks(Do(s, step))
  {
  }

  lemma StepOk<T>(s: State<T>, step: Step<T>)
    requires Inv(s) && Enabled(s, step)
    ensures Inv(Do(s, step))
  {
    var t := Do(s, step);
    KeepsLocks(s, step);
    hide HasQueueLock, HasSubmitLock;
    if step.Go? {
      match s.threads[step.id]
      case InPrepare(txn) =>
        assert InHand(t) == InHand(s);
        assert s.handed + InHand(s) + (s.queue + [txn]) == (s.handed + InHand(s) + s.queue) + [txn];
      case AtQueue =>
        assert InHand(s) == [];
        if s.queue == [] { assert InHand(t) == []; } else { assert InHand(t) == s.queue; }
      case Handing(batch) =>
        if batch != [] {
          assert InHand(t) == batch[1..];
          assert s.handed + batch == (s.handed + [batch[0]]) + batch[1..];
        }
      case Idle =>
      case _ => assert InHand(t) == InHand(s);
    } else {
      assert InHand(t) == InHand(s);
    }
  }

  ghost predicate Run<T>(states: seq<State<T>>, steps: seq<Step<T>>) {
    && |states| == |steps| + 1 && Init(states[0])
    && (forall k :: 0 <= k < |steps| ==> Enabled(states[k], steps[k]) && states[k + 1] == Do(states[k], steps[k]))
  }

  lemma {:induction false} RunInv<T>(states: seq<State<T>>, steps: seq<Step<T>>, n: nat)
    requires Run(states, steps) && n < |states|
    ensures Inv(states[n])
    decreases n
  {
    hide Inv, Init, Enabled, Do;
    if n == 0 {
      InitOk(states[0]);
    } else {
      RunInv(states, steps, n - 1);
      StepOk(states[n - 1], steps[n - 1]);
    }
  }

  lemma InitOk<T>(s: State<T>)
    requires Init(s)
    ensures Inv(s)
  {
  }

  // ----- what that means -----

  /** Nothing is lost, repeated or overtaken: the store has been handed the
      transactions in the order they were prepared, however many threads submit. */
  lemma InOrder<T>(states: seq<State<T>>, steps: seq<Step<T>>, n: nat)
    requires Run(states, steps) && n < |states|
    ensures states[n].handed + InHand(states[n]) + states[n].queue == states[n].prepared
    ensures states[n].handed <= states[n].prepared
  {
    RunInv(states, steps, n);
    assert states[n].handed + InHand(states[n]) + states[n].queue == states[n].handed + (InHand(states[n]) + states[n].queue);
  }

  lemma Grows<T>(s: State<T>, step: Step<T>)
    requires Enabled(s, step) && s.asked <= |s.prepared|
    ensures var t := Do(s, step); s.prepared <= t.prepared && s.handed <= t.handed && s.asked <= t.asked
  {
  }

  /** The prepared transactions only grow, and so do those handed over. */
  lemma {:induction false} Monotone<T>(states: seq<State<T>>, steps: seq<Step<T>>, k: nat, n: nat)
    requires Run(states, steps) && k <= n < |states|
    ensures states[k].prepared <= states[n].prepared && states[k].handed <= states[n].handed
    ensures states[k].asked <= states[n].asked
    decreases n
  {
    if k < n {
      Monotone(states, steps, k, n - 1);
      RunInv(states, steps, n - 1);
      hide Do, Enabled, Init, InHand, HasQueueLock, HasSubmitLock;
      Grows(states[n - 1], steps[n - 1]);
    }
  }

  /** A submit() that found the lock taken can return at once: whatever had been
      prepared by then has been handed over by the time the lock is free again. */
  lemma NeverStranded<T>(states: seq<State<T>>, steps: seq<Step<T>>, k: nat, n: nat)
    requires Run(states, steps) && k < n < |states|
    requires steps[k].Go? && states[k].threads[steps[k].id].Calling?
    requires states[n].submitLock == None
    ensures states[k].prepared <= states[n].handed
  {
    RunInv(states, steps, n);
    Monotone(states, steps, k, n);
    Monotone(states, steps, k + 1, n);
    InOrder(states, steps, n);
    assert states[k + 1].asked == |states[k].prepared|;
  }
}
