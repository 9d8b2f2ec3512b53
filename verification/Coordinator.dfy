/** The coordinator's loops, with the slot array they update, run against the transition system.

    The object's `s` is the world the coordinator shares with the workers and the caller, and
    `trace` is the run of the system that led to it: whatever the loops and the others do is a
    run of the transition system, so every theorem about its runs holds of the object.
    `Interfere` is what the others do between two actions of the coordinator. */
module Coordinator {
  import opened Base
  import opened OrderedWindow

  /** The steps lead from the start of a call to the state. */
  ghost predicate Reach(c: Config, ctxErr: bool, trace: seq<Step>, s: State) {
    ValidConfig(c) && forall k: Seal :: Open(k) ==> Run(c, Init(ctxErr, ctxErr), trace, s)
  }

  lemma {:induction false} Unseal(c: Config, e: bool, tr: seq<Step>, s: State)
    requires Reach(c, e, tr, s)
    ensures Run(c, Init(e, e), tr, s)
  {
    assert Open(Seal);
  }

  lemma {:induction false} Known(c: Config, e: bool, tr: seq<Step>, s: State)
    requires Reach(c, e, tr, s)
    ensures Inv(c, s)
  {
    Unseal(c, e, tr, s);
    InitInv(c, e, e);
    RunKeepsInv(c, Init(e, e), tr, s);
  }

  lemma {:induction false} RankIsNat(c: Config, e: bool, tr: seq<Step>, s: State)
    requires Reach(c, e, tr, s)
    ensures Rank(c, s) >= 0
  {
    Known(c, e, tr, s);
  }

  lemma {:induction false} Extend(c: Config, e: bool, tr: seq<Step>, s: State, step: Step)
    requires Reach(c, e, tr, s) && Enabled(c, s, step)
    ensures Reach(c, e, tr + [step], Do(c, s, step))
  {
    Unseal(c, e, tr, s);
    assert [step][1..] == [];
    RunConcat(c, Init(e, e), tr, s, [step], Do(c, s, step));
  }

  lemma {:induction false} TakeStep(c: Config, e: bool, tr: seq<Step>, s: State, step: Step)
    requires Reach(c, e, tr, s) && Enabled(c, s, step)
    ensures Reach(c, e, tr + [step], Do(c, s, step)) && 0 <= Rank(c, Do(c, s, step)) < Rank(c, s)
  {
    Extend(c, e, tr, s, step);
    RankIsNat(c, e, tr + [step], Do(c, s, step));
    Known(c, e, tr, s);
    if step == Select(SelectStep.Receive) { GuardNeverFires(c, s); }
    RankFalls(c, s, step);
  }

  // ---------- The others ----------

  /** What the workers and the caller may change: everything except the coordinator's own variables. */
  predicate OthersMoved(c: Config, s: State, t: State) {
    && t.pc == s.pc && t.queued == s.queued && t.committed == s.committed && t.pending == s.pending
    && t.firstErr == s.firstErr && t.recorded == s.recorded && t.complete == s.complete
    && (s.cancelled ==> t.cancelled) && (s.ctxErr ==> t.ctxErr)
    && 0 <= Rank(c, t) <= Rank(c, s)
  }

  lemma {:induction false} WorkMoves(c: Config, e: bool, tr: seq<Step>, s: State, w: WorkStep)
    requires Reach(c, e, tr, s) && WorkEnabled(c, s, w)
    ensures Reach(c, e, tr + [Work(w)], DoWork(c, s, w)) && OthersMoved(c, s, DoWork(c, s, w))
    ensures 0 <= Rank(c, DoWork(c, s, w)) < Rank(c, s)
  {
    TakeStep(c, e, tr, s, Work(w));
  }

  lemma {:induction false} ContextMoves(c: Config, e: bool, tr: seq<Step>, s: State, x: ContextStep)
    requires Reach(c, e, tr, s) && ContextEnabled(s, x)
    ensures Reach(c, e, tr + [Context(x)], DoContext(s, x)) && OthersMoved(c, s, DoContext(s, x))
    ensures Rank(c, DoContext(s, x)) < Rank(c, s)
  {
    TakeStep(c, e, tr, s, Context(x));
  }

  lemma {:induction false} ChannelHasRoom(c: Config, e: bool, tr: seq<Step>, s: State)
    requires Reach(c, e, tr, s)
    ensures s.pc == Filling && MayQueue(c, s) ==> FillEnabled(c, s, Queue)
    ensures s.running != multiset{} ==> |s.outcomes| < c.window
  {
    Known(c, e, tr, s);
    SendsNeverBlock(c, s);
  }

  /** Which move an idle scheduler makes next. */
  method PickMove(c: Config, ghost e: bool, ghost tr: seq<Step>, s: State, run: nat -> Ran) returns (w: WorkStep)
    requires Reach(c, e, tr, s) && (s.jobs != [] || Busy(s) > 0)
    ensures WorkEnabled(c, s, w)
  {
    ChannelHasRoom(c, e, tr, s);
    if s.owing > 0 {
      w := WorkerCancels;
    } else if s.running != multiset{} {
      var i :| i in s.running;
      w := Finish(i, run(i));
    } else if s.taken != multiset{} {
      var i :| i in s.taken;
      w := if s.cancelled then Drop(i) else Start(i);
    } else {
      w := Take;
    }
  }

  /** One move of a worker or of the caller's context, if there is one. */
  method MoveOnce(c: Config, ghost e: bool, ghost tr: seq<Step>, s: State, run: nat -> Ran)
    returns (t: State, ghost more: seq<Step>, moved: bool)
    requires Reach(c, e, tr, s)
    ensures Reach(c, e, more, t) && OthersMoved(c, s, t) && (moved ==> Rank(c, t) < Rank(c, s))
  {
    t, more, moved := s, tr, true;
    RankIsNat(c, e, tr, s);
    if {
      case s.jobs != [] || Busy(s) > 0 =>
        var w := PickMove(c, e, tr, s, run);
        WorkMoves(c, e, tr, s, w);
        t, more := DoWork(c, s, w), tr + [Work(w)];
      case ContextEnabled(s, ExternalCancel) =>
        ContextMoves(c, e, tr, s, ExternalCancel);
        t, more := DoContext(s, ExternalCancel), tr + [Context(ExternalCancel)];
      case ContextEnabled(s, PropagateCancel) =>
        ContextMoves(c, e, tr, s, PropagateCancel);
        t, more := DoContext(s, PropagateCancel), tr + [Context(PropagateCancel)];
      case true =>
        moved := false;
    }
  }

  /** Any number of such moves. */
  method LetOthersMove(c: Config, ghost e: bool, ghost tr: seq<Step>, s: State, run: nat -> Ran)
    returns (t: State, ghost more: seq<Step>)
    requires Reach(c, e, tr, s)
    ensures Reach(c, e, more, t) && OthersMoved(c, s, t)
  {
    t, more := s, tr;
    RankIsNat(c, e, tr, s);
    var moved := true;
    while moved
      invariant Reach(c, e, more, t) && OthersMoved(c, s, t)
      decreases Rank(c, t), moved
    {
      t, more, moved := MoveOnce(c, e, more, t, run);
    }
  }

  lemma {:induction false} SomeoneMoves(c: Config, e: bool, tr: seq<Step>, s: State)
    requires Reach(c, e, tr, s) && s.pc == Selecting && !s.cancelled && s.outcomes == []
    ensures s.jobs != [] || Busy(s) > 0
  {
    Known(c, e, tr, s);
    SelectingIsServed(c, s);
  }

  /** The blocking select: the workers move until an outcome or the cancellation is there. */
  method Await(c: Config, ghost e: bool, ghost tr: seq<Step>, s: State, run: nat -> Ran)
    returns (t: State, ghost more: seq<Step>)
    requires Reach(c, e, tr, s) && s.pc == Selecting
    ensures Reach(c, e, more, t) && OthersMoved(c, s, t) && (t.outcomes != [] || t.cancelled)
  {
    t, more := s, tr;
    RankIsNat(c, e, tr, s);
    while t.outcomes == [] && !t.cancelled
      invariant Reach(c, e, more, t) && OthersMoved(c, s, t)
      decreases Rank(c, t)
    {
      SomeoneMoves(c, e, more, t);
      var w := PickMove(c, e, more, t, run);
      WorkMoves(c, e, more, t, w);
      t, more := DoWork(c, t, w), more + [Work(w)];
    }
  }

  /** Waiting for every worker to stop. */
  method Join(c: Config, ghost e: bool, ghost tr: seq<Step>, s: State, run: nat -> Ran)
    returns (t: State, ghost more: seq<Step>)
    requires Reach(c, e, tr, s) && s.pc == Waiting
    ensures Reach(c, e, more, t) && OthersMoved(c, s, t) && ShutEnabled(t, WaitDone)
  {
    t, more := s, tr;
    RankIsNat(c, e, tr, s);
    while t.jobs != [] || Busy(t) > 0
      invariant Reach(c, e, more, t) && OthersMoved(c, s, t)
      decreases Rank(c, t)
    {
      var w := PickMove(c, e, more, t, run);
      WorkMoves(c, e, more, t, w);
      t, more := DoWork(c, t, w), more + [Work(w)];
    }
  }

  // ---------- The ring ----------

  /** The slot array that holds a ring. */
  function SlotsOf(n: nat, ring: map<nat, Parked>): (a: seq<Option<Parked>>)
    ensures |a| == n
  {
    seq(n, k requires 0 <= k < n => if k in ring then Some(ring[k]) else None)
  }

  lemma SlotsFill(n: nat, ring: map<nat, Parked>, k: nat, p: Parked)
    requires k < n
    ensures SlotsOf(n, ring[k := p]) == SlotsOf(n, ring)[k := Some(p)]
  {
  }

  lemma SlotsFree(n: nat, ring: map<nat, Parked>, k: nat)
    requires k < n
    ensures SlotsOf(n, ring - {k}) == SlotsOf(n, ring)[k := None]
  {
  }

  lemma {:induction false} GuardIsQuiet(c: Config, e: bool, tr: seq<Step>, s: State)
    requires Reach(c, e, tr, s) && SelectEnabled(c, s, SelectStep.Receive)
    ensures !GuardFires(c, s, s.outcomes[0].index)
  {
    Known(c, e, tr, s);
    GuardNeverFires(c, s);
  }

  /** What the steps of the coordinator change of the variables it keeps. */
  lemma {:induction false} QueueStep(c: Config, e: bool, tr: seq<Step>, s: State)
    requires Reach(c, e, tr, s) && s.pc == Filling && MayQueue(c, s)
    ensures var t := DoFill(c, s, Queue);
            && Reach(c, e, tr + [Fill(Queue)], t) && 0 <= Rank(c, t) < Rank(c, s) && t.pc == Filling && t.pending == s.pending
            && t.queued == s.queued + 1 && t.committed == s.committed && t.firstErr == s.firstErr
  {
    ChannelHasRoom(c, e, tr, s);
    TakeStep(c, e, tr, s, Fill(Queue));
  }

  lemma {:induction false} CommitStep(c: Config, e: bool, tr: seq<Step>, s: State)
    requires Reach(c, e, tr, s) && s.pc == Committing && HeadPresent(c, s)
    ensures var t := DoPersist(c, s, Commit);
            && Reach(c, e, tr + [Persist(Commit)], t) && 0 <= Rank(c, t) < Rank(c, s) && t.pc == Committing
            && t.queued == s.queued && t.committed == s.committed + 1 && t.firstErr == s.firstErr
            && SlotsOf(c.window, t.pending) == SlotsOf(c.window, s.pending)[s.committed % c.window := None]
  {
    TakeStep(c, e, tr, s, Persist(Commit));
    SlotsFree(c.window, s.pending, s.committed % c.window);
  }

  lemma {:induction false} RefuseStep(c: Config, e: bool, tr: seq<Step>, s: State, text: string)
    requires Reach(c, e, tr, s) && s.pc == Committing && HeadPresent(c, s)
    ensures var t := DoPersist(c, s, RecordFails(text));
            && Reach(c, e, tr + [Persist(RecordFails(text))], t) && 0 <= Rank(c, t) < Rank(c, s) && t.pc == Closing
            && t.queued == s.queued && t.committed == s.committed && t.firstErr == Some(RecordFailed(s.committed, text))
            && SlotsOf(c.window, t.pending) == SlotsOf(c.window, s.pending)[s.committed % c.window := None]
  {
    TakeStep(c, e, tr, s, Persist(RecordFails(text)));
    SlotsFree(c.window, s.pending, s.committed % c.window);
  }

  lemma {:induction false} FillingIsUnfinished(c: Config, e: bool, tr: seq<Step>, s: State)
    requires Reach(c, e, tr, s)
    ensures s.pc == Filling ==> s.committed < c.count
  {
    Known(c, e, tr, s);
  }

  /** A worker sent the error, or a failing next or record step of the run raised it. */
  ghost predicate Reported(c: Config, e: bool, tr: seq<Step>, error: Error) {
    c.window > 0 && ((exists i :: Work(Finish(i, Hard(error))) in tr) || exists k, mid :: RaisedAt(c, Init(e, e), tr, k, mid, error))
  }

  /** What the end of a call knows. */
  lemma {:induction false} EndKnown(c: Config, e: bool, tr: seq<Step>, s: State)
    requires Reach(c, e, tr, s) && s.pc == Returned
    ensures s.firstErr.Some? <==> AnyFails(tr)
    ensures s.firstErr.Some? ==> Reported(c, e, tr, s.firstErr.value)
    ensures s.complete <==> s.firstErr.None? && !s.ctxErr
    ensures s.complete ==> |s.recorded| == c.count == s.queued
                           && forall i :: 0 <= i < c.count ==> i in s.produced && s.produced[i] == Ok(s.recorded[i])
  {
    Known(c, e, tr, s);
    Unseal(c, e, tr, s);
    ReturnedResult(c, s);
    FailuresSurface(c, e, e, tr, s);
    if s.firstErr.Some? { ErrorIsReported(c, e, e, tr, s); }
  }

  /** The two callbacks that the coordinator calls. */
  datatype Callback = Next | Save

  /** What a failing call surfaces as. */
  function Surfaces(b: Callback, i: nat, text: string): Error {
    match b case Next => NextFailed(i, text) case Save => RecordFailed(i, text)
  }

  /** Of the calls of a callback those for the first indices gave no error; there is at most one more,
      which did, and then that is the error that is kept. */
  ghost predicate Made(b: Callback, f: nat -> Option<string>, done: nat, calls: nat, err: Option<Error>) {
    forall k: Seal :: Open(k) ==> (forall i :: 0 <= i < done ==> f(i).None?)
                                  && (calls == done
                                      || (calls == done + 1 && f(done).Some? && err == Some(Surfaces(b, done, f(done).value))))
  }

  lemma OneMoreMade(b: Callback, f: nat -> Option<string>, done: nat, err: Option<Error>)
    requires Made(b, f, done, done, err) && f(done).None?
    ensures Made(b, f, done + 1, done + 1, err)
  {
    assert Open(Seal);
  }

  lemma FailureMade(b: Callback, f: nat -> Option<string>, done: nat, err: Option<Error>)
    requires Made(b, f, done, done, err) && f(done).Some?
    ensures Made(b, f, done, done + 1, Some(Surfaces(b, done, f(done).value)))
  {
    assert Open(Seal);
  }

  lemma StillMade(b: Callback, f: nat -> Option<string>, done: nat, err: Option<Error>, now: Option<Error>)
    requires Made(b, f, done, done, err)
    ensures Made(b, f, done, done, now)
  {
    assert Open(Seal);
  }

  lemma MadeMeans(b: Callback, f: nat -> Option<string>, done: nat, calls: nat, err: Option<Error>)
    requires Made(b, f, done, calls, err)
    ensures forall i :: 0 <= i < calls && f(i).Some? ==> err == Some(Surfaces(b, i, f(i).value))
    ensures forall i :: 0 <= i < done ==> f(i).None?
  {
    assert Open(Seal);
  }

  class Window {
    const c: Config
    const next: nat -> Option<string>   // Some(text): reading this candidate fails
    const run: nat -> Ran
    const save: nat -> Option<string>   // Some(text): persisting this result fails
    const pending: array<Option<Parked>>
    var s: State
    var queued: nat
    var committed: nat
    var active: bool
    var firstErr: Option<Error>
    ghost const began: bool             // whether the caller's context was done at the start
    ghost var trace: seq<Step>
    ghost var nextCalls: nat            // calls of next
    ghost var recordCalls: nat          // calls of record

    ghost predicate Slots()
      reads this, pending
    {
      pending[..] == SlotsOf(c.window, s.pending)
    }

    /** The calls of next and record that were made, and what they gave. */
    ghost predicate Calls()
      reads this
    {
      Made(Next, next, queued, nextCalls, firstErr) && Made(Save, save, committed, recordCalls, firstErr)
    }

    ghost predicate Valid()
      reads this, pending
    {
      && Reach(c, began, trace, s) && Slots() && Calls()
      && queued == s.queued && committed == s.committed && firstErr == s.firstErr
      && (active <==> s.pc in {Filling, Selecting, Committing})
    }

    constructor (c: Config, ctxErr: bool, next: nat -> Option<string>, run: nat -> Ran, save: nat -> Option<string>)
      requires ValidConfig(c)
      ensures Valid() && fresh(pending) && this.c == c && s == Init(ctxErr, ctxErr)
      ensures began == ctxErr && this.next == next && this.run == run && this.save == save
    {
      this.c := c;
      this.next, this.run, this.save := next, run, save;
      s := Init(ctxErr, ctxErr);
      began, trace, nextCalls, recordCalls := ctxErr, [], 0, 0;
      queued, committed, active, firstErr := 0, 0, true, None;
      pending := new Option<Parked>[c.window](_ => None);
    }

    /** Writes one slot of the ring. */
    method SetSlot(k: nat, p: Option<Parked>)
      requires k < pending.Length
      modifies pending
      ensures pending[..] == old(pending[..])[k := p]
    {
      pending[k] := p;
    }

    /** The others move. */
    method Interfere()
      requires Valid()
      modifies this`s, this`trace
      ensures Valid() && OthersMoved(c, old(s), s)
    {
      s, trace := LetOthersMove(c, began, trace, s, run);
    }

    /** Reading the next candidate fails. */
    method FailNext(text: string)
      requires Valid() && s.pc == Filling && MayQueue(c, s) && next(queued) == Some(text) && nextCalls == queued && recordCalls == committed
      modifies this
      ensures Valid() && s == DoFill(c, old(s), NextFails(text)) && 0 <= Rank(c, s) < Rank(c, old(s))
      ensures nextCalls == queued + 1
    {
      TakeStep(c, began, trace, s, Fill(NextFails(text)));
      FailureMade(Next, next, queued, firstErr);
      StillMade(Save, save, committed, firstErr, Some(NextFailed(queued, text)));
      nextCalls := nextCalls + 1;
      trace := trace + [Fill(NextFails(text))];
      firstErr, active, s := Some(NextFailed(queued, text)), false, DoFill(c, s, NextFails(text));
    }

    /** The next candidate goes into the channel, which has room. */
    method SendNext()
      requires Valid() && s.pc == Filling && MayQueue(c, s) && next(queued).None? && nextCalls == queued && recordCalls == committed
      modifies this
      ensures Valid() && s == DoFill(c, old(s), Queue) && nextCalls == queued && recordCalls == committed
      ensures 0 <= Rank(c, s) < Rank(c, old(s))
    {
      QueueStep(c, began, trace, s);
      OneMoreMade(Next, next, queued, firstErr);
      nextCalls := nextCalls + 1;
      trace := trace + [Fill(Queue)];
      queued, s := queued + 1, DoFill(c, s, Queue);
    }

    method StopFilling()
      requires Valid() && s.pc == Filling && !MayQueue(c, s)
      modifies this
      ensures Valid() && s == DoFill(c, old(s), FillStep.StopFilling) && nextCalls == old(nextCalls) && recordCalls == old(recordCalls)
      ensures 0 <= Rank(c, s) < Rank(c, old(s))
    {
      TakeStep(c, began, trace, s, Fill(FillStep.StopFilling));
      trace := trace + [Fill(FillStep.StopFilling)];
      active, s := queued != committed, DoFill(c, s, FillStep.StopFilling);
    }

    /** No call of next or record has failed so far. */
    ghost predicate Unharmed() reads this { nextCalls == queued && recordCalls == committed }

    /** The queueing loop. It ends when a candidate cannot be read, or when the window is full, the
        candidates are used up or the context is done. */
    method FillWindow()
      requires Valid() && s.pc == Filling && Unharmed()
      modifies this
      ensures Valid() && s.pc in {Selecting, Closing} && 0 <= Rank(c, s) < Rank(c, old(s))
      ensures committed == old(committed) && s.recorded == old(s.recorded) && old(queued) <= queued
      ensures (next(queued).Some? && nextCalls == queued + 1 && s.pc == Closing && firstErr == Some(NextFailed(queued, next(queued).value)))
              || (Unharmed() && !MayQueue(c, s) && (s.pc == Closing <==> queued == committed))
    {
      RankIsNat(c, began, trace, s);
      while queued < c.count && queued - committed < c.window && !s.cancelled
        invariant Valid() && s.pc == Filling && Unharmed() && 0 <= Rank(c, s) <= Rank(c, old(s))
        invariant committed == old(committed) && s.recorded == old(s.recorded) && old(queued) <= queued
        decreases Rank(c, s)
      {
        if next(queued).Some? {
          FailNext(next(queued).value);
          return;
        }
        SendNext();
        Interfere();
      }
      StopFilling();
    }

    /** The received item is a hard error. */
    method TakeError()
      requires Valid() && s.pc == Selecting && s.outcomes != [] && s.outcomes[0].ran.Hard? && Unharmed()
      modifies this
      ensures Valid() && s == DoReceive(c, old(s)) && s.pc == Closing && 0 <= Rank(c, s) < Rank(c, old(s))
      ensures Unharmed()
    {
      TakeStep(c, began, trace, s, Select(SelectStep.Receive));
      StillMade(Next, next, queued, firstErr, Some(s.outcomes[0].ran.error));
      StillMade(Save, save, committed, firstErr, Some(s.outcomes[0].ran.error));
      trace := trace + [Select(SelectStep.Receive)];
      firstErr, active, s := Some(s.outcomes[0].ran.error), false, DoReceive(c, s);
    }

    /** The received item is a report: the guard does not fire, and it is parked in its slot. */
    method Park()
      requires Valid() && s.pc == Selecting && s.outcomes != [] && s.outcomes[0].ran.Ok? && Unharmed()
      modifies this, pending
      ensures Valid() && s == DoReceive(c, old(s)) && s.pc == Committing && 0 <= Rank(c, s) < Rank(c, old(s))
      ensures Unharmed()
    {
      GuardIsQuiet(c, began, trace, s);
      TakeStep(c, began, trace, s, Select(SelectStep.Receive));
      var item := s.outcomes[0];
      if item.index < committed || item.index >= queued || pending[item.index % c.window].Some? {
        assert false;
      }
      SlotsFill(c.window, s.pending, item.index % c.window, Parked(item.index, item.ran.report));
      SetSlot(item.index % c.window, Some(Parked(item.index, item.ran.report)));
      trace := trace + [Select(SelectStep.Receive)];
      s := DoReceive(c, s);
    }

    /** What the outcome arm of the select does with one item. */
    method Receive()
      requires Valid() && s.pc == Selecting && s.outcomes != [] && Unharmed()
      modifies this, pending
      ensures Valid() && s == DoReceive(c, old(s)) && s.pc in {Committing, Closing}
      ensures 0 <= Rank(c, s) < Rank(c, old(s)) && Unharmed()
    {
      if s.outcomes[0].ran.Hard? {
        TakeError();
      } else {
        Park();
      }
    }

    /** Takes the head of the ring, which is present; `record` accepts it. */
    method PersistHead()
      requires Valid() && s.pc == Committing && HeadPresent(c, s) && save(committed).None? && Unharmed()
      modifies this, pending
      ensures Valid() && s == DoPersist(c, old(s), Commit) && s.pc == Committing && Unharmed()
      ensures 0 <= Rank(c, s) < Rank(c, old(s))
    {
      CommitStep(c, began, trace, s);
      OneMoreMade(Save, save, committed, firstErr);
      SetSlot(committed % c.window, None);
      recordCalls := recordCalls + 1;
      trace := trace + [Persist(Commit)];
      committed, s := committed + 1, DoPersist(c, s, Commit);
    }

    /** Takes the head of the ring, which is present; `record` fails on it. */
    method RefuseHead(text: string)
      requires Valid() && s.pc == Committing && HeadPresent(c, s) && save(committed) == Some(text) && Unharmed()
      modifies this, pending
      ensures Valid() && s == DoPersist(c, old(s), RecordFails(text)) && s.pc == Closing
      ensures 0 <= Rank(c, s) < Rank(c, old(s)) && recordCalls == committed + 1
    {
      RefuseStep(c, began, trace, s, text);
      FailureMade(Save, save, committed, firstErr);
      StillMade(Next, next, queued, firstErr, Some(RecordFailed(committed, text)));
      SetSlot(committed % c.window, None);
      recordCalls := recordCalls + 1;
      trace := trace + [Persist(RecordFails(text))];
      firstErr, active, s := Some(RecordFailed(committed, text)), false, DoPersist(c, s, RecordFails(text));
    }

    method StopPersisting()
      requires Valid() && s.pc == Committing && !HeadPresent(c, s) && Unharmed()
      modifies this
      ensures Valid() && s == DoPersist(c, old(s), StopCommitting) && Unharmed()
      ensures 0 <= Rank(c, s) < Rank(c, old(s))
    {
      TakeStep(c, began, trace, s, Persist(StopCommitting));
      trace := trace + [Persist(StopCommitting)];
      active, s := committed < c.count, DoPersist(c, s, StopCommitting);
    }

    /** Persists the completed prefix: the log grows by one report a record, until there is a gap, all
        is recorded, or a record fails. */
    method PersistPrefix()
      requires Valid() && s.pc == Committing && Unharmed()
      modifies this, pending
      ensures Valid() && s.pc in {Filling, Closing} && 0 <= Rank(c, s) < Rank(c, old(s))
      ensures old(s.recorded) <= s.recorded && |s.recorded| - |old(s.recorded)| == committed - old(committed)
      ensures (save(committed).Some? && recordCalls == committed + 1 && s.pc == Closing && firstErr == Some(RecordFailed(committed, save(committed).value)))
              || (Unharmed() && !HeadPresent(c, s) && (s.pc == Closing <==> committed >= c.count))
    {
      RankIsNat(c, began, trace, s);
      while pending[committed % c.window].Some?
        invariant Valid() && s.pc == Committing && Unharmed() && 0 <= Rank(c, s) <= Rank(c, old(s))
        invariant old(s.recorded) <= s.recorded && |s.recorded| - |old(s.recorded)| == committed - old(committed)
        decreases Rank(c, s)
      {
        if save(committed).Some? {
          RefuseHead(save(committed).value);
          return;
        }
        PersistHead();
        Interfere();
      }
      StopPersisting();
    }

    /** The cancellation arm of the select. */
    method NoticeCancel()
      requires Valid() && s.pc == Selecting && s.cancelled && Unharmed()
      modifies this
      ensures Valid() && s == DoSelect(c, old(s), SeeCancel) && Unharmed() && 0 <= Rank(c, s) < Rank(c, old(s))
    {
      TakeStep(c, began, trace, s, Select(SeeCancel));
      trace := trace + [Select(SeeCancel)];
      active, s := false, DoSelect(c, s, SeeCancel);
    }

    /** One pass through the select: an outcome, or the cancellation. */
    method SelectOne(preferCancel: bool)
      requires Valid() && s.pc == Selecting && (s.outcomes != [] || s.cancelled) && Unharmed()
      modifies this, pending
      ensures Valid() && s.pc in {Filling, Closing} && 0 <= Rank(c, s) < Rank(c, old(s))
      ensures s.pc == Filling ==> Unharmed()
    {
      if s.outcomes == [] || (preferCancel && s.cancelled) {
        NoticeCancel();
      } else {
        Receive();
        if s.pc == Committing {
          PersistPrefix();
        }
      }
    }

    /** One iteration of the outer loop. */
    method Turn(preferCancel: bool)
      requires Valid() && s.pc == Filling && Unharmed()
      modifies this, pending
      ensures Valid() && s.pc in {Filling, Closing} && 0 <= Rank(c, s) < Rank(c, old(s))
      ensures s.pc == Filling ==> Unharmed()
    {
      FillWindow();
      if active {
        s, trace := Await(c, began, trace, s, run);
        SelectOne(preferCancel);
      }
    }

    /** One step of the end of the call. */
    method ShutStepTaken(step: ShutStep)
      requires Reach(c, began, trace, s) && ShutEnabled(s, step)
      modifies this`s, this`trace
      ensures Reach(c, began, trace, s) && s == DoShut(c, old(s), step) && 0 <= Rank(c, s) < Rank(c, old(s))
    {
      TakeStep(c, began, trace, s, Shut(step));
      s, trace := DoShut(c, s, step), trace + [Shut(step)];
    }

    /** close(jobs), cancel, wait, then read what is left in the outcomes channel. */
    method Shutdown()
      requires Valid() && s.pc == Closing
      modifies this`s, this`trace
      ensures Reach(c, began, trace, s) && s.pc == Returned && (firstErr.Some? ==> s.firstErr == firstErr) && s.queued == old(s.queued)
    {
      ShutStepTaken(CloseJobs);
      s, trace := Join(c, began, trace, s, run);
      ShutStepTaken(WaitDone);
      while s.outcomes != []
        invariant Reach(c, began, trace, s) && s.pc == Draining && (firstErr.Some? ==> s.firstErr == firstErr) && s.queued == old(s.queued)
        decreases |s.outcomes|
      {
        ShutStepTaken(Drain);
      }
      ShutStepTaken(Return);
    }

    /** The loops of the call, up to the closing of the jobs channel. */
    method Loops(preferCancel: nat -> bool)
      requires Valid() && s.pc == Filling && Unharmed()
      modifies this, pending
      ensures Valid() && s.pc == Closing
    {
      var turn := 0;
      RankIsNat(c, began, trace, s);
      while active && committed < c.count
        invariant Valid() && s.pc in {Filling, Closing} && (s.pc == Filling ==> Unharmed()) && Rank(c, s) >= 0
        decreases Rank(c, s)
      {
        Turn(preferCancel(turn));
        turn := turn + 1;
      }
      FillingIsUnfinished(c, began, trace, s);
    }

    /** The whole call. However the others interfere, what happens is a run of the transition system
        that returns. A next, record or run that fails surfaces as an error, a next or record with its own index
        and text, and nothing else does; a
        call without error is complete unless the caller cancelled, and a complete one has recorded
        every index in order. */
    method Execute(preferCancel: nat -> bool) returns (complete: bool, err: Option<Error>)
      requires Valid() && s.pc == Filling && Unharmed()
      modifies this, pending
      ensures Reach(c, began, trace, s) && s.pc == Returned && complete == s.complete && err == s.firstErr
      ensures err.Some? <==> AnyFails(trace)
      ensures err.Some? ==> Reported(c, began, trace, err.value)
      ensures forall i :: 0 <= i < nextCalls && next(i).Some? ==> err == Some(NextFailed(i, next(i).value))
      ensures forall i :: 0 <= i < recordCalls && save(i).Some? ==> err == Some(RecordFailed(i, save(i).value))
      ensures complete ==> forall i :: 0 <= i < c.count ==> next(i).None?
      ensures complete <==> err.None? && !s.ctxErr
      ensures complete ==> |s.recorded| == c.count
                           && forall i :: 0 <= i < c.count ==> i in s.produced && s.produced[i] == Ok(s.recorded[i])
    {
      Loops(preferCancel);
      MadeMeans(Next, next, queued, nextCalls, firstErr);
      MadeMeans(Save, save, committed, recordCalls, firstErr);
      Shutdown();
      EndKnown(c, began, trace, s);
      complete, err := s.complete, s.firstErr;
    }
  }

  // ---------- A run over a spool ----------

  /** What the reader of the spool says at its end. */
  const END_OF_SPOOL: string := "EOF"

  /** There are n candidates, which may or may not be readable, and behind them is the end of the spool. */
  ghost predicate Spooled(next: nat -> Option<string>, n: nat) {
    forall i: nat :: next(i) == Some(END_OF_SPOOL) <==> i >= n
  }

  datatype Streamed = Refused | Streamed(results: nat, complete: bool)

  /** The call, and the check that the spool ends behind the last candidate. A complete answer has one result
      for each candidate of the spool, whose number is the count. */
  method ExecuteSpooled(w: Window, preferCancel: nat -> bool, ghost n: nat) returns (r: Streamed)
    requires w.Valid() && w.s.pc == Filling && w.Unharmed() && Spooled(w.next, n)
    modifies w, w.pending
    ensures r.Refused? <==> AnyFails(w.trace) || (w.s.complete && n != w.c.count)
    ensures r.Streamed? ==> r.results == |w.s.recorded| && (r.complete <==> !w.s.ctxErr)
    ensures r.Streamed? && r.complete ==> r.results == w.c.count == n
  {
    var complete, err := w.Execute(preferCancel);
    assert w.next(n) == Some(END_OF_SPOOL);
    if err.Some? { return Refused; }
    if w.s.ctxErr {
      complete := false;
    }
    if complete && w.next(w.c.count) != Some(END_OF_SPOOL) { return Refused; }
    r := Streamed(|w.s.recorded|, complete);
  }
}
