/** The ordered sliding-window executor as a transition system.

    One coordinator and several workers share a bounded channel of jobs, a
    bounded channel of outcomes, a ring of outcomes that arrived early, and a
    cancel flag.  Every atomic action of either side is a `Step`; a run is any
    interleaving of enabled steps.  Fields marked "history" are never read by an
    enabled test or by the visible part of an effect: they only remember what
    happened, so that the theorems can speak about it. */
module OrderedWindow {
  import opened Base

  /** One call's three success values: the result, and whether and how caching failed. */
  datatype Report = Report(mutation: string, verdict: Verdict, executed: bool, cacheError: Option<string>)

  datatype Error =
    | NextFailed(index: nat, text: string)
    | RunFailed(index: nat, text: string)
    | RecordFailed(index: nat, text: string)
    | OutOfWindow(index: nat)

  /** What `run` gives back: a report, or a hard error. */
  datatype Ran = Ok(report: Report) | Hard(error: Error)

  datatype Outcome = Outcome(index: nat, ran: Ran)

  /** An outcome waiting in the ring; hard errors never get there. */
  datatype Parked = Parked(index: nat, report: Report)

  /** Parameters after clamping. */
  datatype Config = Config(count: nat, workers: nat, window: nat)

  datatype Entry = Immediate(complete: bool, error: bool) | Loop(config: Config)

  /** The entry checks and the clamping of workers and window. */
  function Setup(count: int, workers: int, ctxErr: bool): Entry {
    if count == 0 then Immediate(!ctxErr, false)
    else if count < 0 || workers < 1 then Immediate(false, true)
    else
      var w := Min(workers, count);
      Loop(Config(count, w, Min(4 * w, count)))
  }

  ghost predicate ValidConfig(c: Config) {
    1 <= c.workers <= c.window <= c.count
  }

  lemma SetupIsValid(count: int, workers: int, ctxErr: bool)
    ensures var e := Setup(count, workers, ctxErr);
            e.Loop? <==> count >= 1 && workers >= 1
    ensures var e := Setup(count, workers, ctxErr);
            e.Loop? ==> ValidConfig(e.config) && e.config.count == count
                        && e.config.workers == (if workers < count then workers else count)
                        && e.config.window == (if 4 * e.config.workers < count then 4 * e.config.workers else count)
    ensures count == 0 ==> Setup(count, workers, ctxErr) == Immediate(!ctxErr, false)
    ensures count < 0 || (count > 0 && workers < 1) ==> Setup(count, workers, ctxErr) == Immediate(false, true)
  {
  }

  datatype Pc = Filling | Selecting | Committing | Closing | Waiting | Draining | Returned

  datatype State = State(
    pc: Pc,
    queued: nat,
    committed: nat,
    jobs: seq<nat>,              // the jobs channel, oldest first
    taken: multiset<nat>,        // received by a worker that has not yet tested the flag
    running: multiset<nat>,      // inside run
    owing: nat,                  // workers that sent a hard error and have not yet cancelled
    outcomes: seq<Outcome>,      // the outcomes channel, oldest first
    pending: map<nat, Parked>,   // the ring: slot -> the outcome present in it
    ctxErr: bool,                // the caller's context is done
    cancelled: bool,             // the inner context is done
    firstErr: Option<Error>,
    recorded: seq<Report>,       // arguments of the successful record calls, in order
    complete: bool,              // the returned flag
    produced: map<nat, Ran>,     // history: what run gave for each index
    failed: multiset<nat>,       // history: received hard errors
    refused: multiset<nat>,      // history: record failed
    dropped: multiset<nat>,      // history: taken after cancellation, not run
    drained: multiset<nat>       // history: read after every worker had stopped
  )

  function Init(ctxErr: bool, cancelled: bool): State {
    State(Filling, 0, 0, [], multiset{}, multiset{}, 0, [], map[], ctxErr, cancelled, None, [], false,
          map[], multiset{}, multiset{}, multiset{}, multiset{})
  }

  /** The queueing loop of the coordinator. */
  datatype FillStep = Queue | NextFails(text: string) | StopFilling

  /** The two arms of the coordinator's select. */
  datatype SelectStep = Receive | SeeCancel

  /** The loop that persists the completed prefix. */
  datatype PersistStep = Commit | RecordFails(text: string) | StopCommitting

  /** After the loop: close the channel, wait for the workers, drain, return. */
  datatype ShutStep = CloseJobs | WaitDone | Drain | Return

  /** A worker: receive a job, test the flag, run, send, cancel after a hard error. */
  datatype WorkStep = Take | Start(i: nat) | Drop(i: nat) | Finish(i: nat, ran: Ran) | WorkerCancels

  /** The caller's context, and its propagation to the inner one. */
  datatype ContextStep = ExternalCancel | PropagateCancel

  datatype Step =
    | Fill(fill: FillStep) | Select(select: SelectStep) | Persist(persist: PersistStep) | Shut(shut: ShutStep)
    | Work(work: WorkStep) | Context(context: ContextStep)

  /** The test of the queueing loop. */
  predicate MayQueue(c: Config, s: State) {
    s.queued < c.count && s.queued - s.committed < c.window && !s.cancelled
  }

  predicate HeadPresent(c: Config, s: State)
    requires c.window > 0
  {
    s.committed % c.window in s.pending
  }

  /** Workers that are not waiting for a job. */
  function Busy(s: State): nat { |s.taken| + |s.running| + s.owing }

  predicate FillEnabled(c: Config, s: State, step: FillStep) {
    s.pc == Filling && match step
      case Queue => MayQueue(c, s) && |s.jobs| < c.window  // a full channel blocks the send
      case NextFails(_) => MayQueue(c, s)
      case StopFilling => !MayQueue(c, s)
  }

  function DoFill(c: Config, s: State, step: FillStep): State {
    match step
    case Queue => s.(jobs := s.jobs + [s.queued], queued := s.queued + 1)
    case NextFails(t) => s.(firstErr := Some(NextFailed(s.queued, t)), cancelled := true, pc := Closing)
    case StopFilling => s.(pc := if s.queued == s.committed then Closing else Selecting)
  }

  predicate SelectEnabled(c: Config, s: State, step: SelectStep) {
    s.pc == Selecting && match step
      case Receive => s.outcomes != []
      case SeeCancel => s.cancelled
  }

  predicate GuardFires(c: Config, s: State, i: nat)
    requires c.window > 0
  {
    i < s.committed || i >= s.queued || i % c.window in s.pending
  }

  function DoReceive(c: Config, s: State): State
    requires c.window > 0 && s.outcomes != []
  {
    var o := s.outcomes[0];
    var rest := s.(outcomes := s.outcomes[1..]);
    if o.ran.Hard? then
      rest.(failed := s.failed + multiset{o.index}, firstErr := Some(o.ran.error), cancelled := true, pc := Closing)
    else if GuardFires(c, s, o.index) then
      rest.(failed := s.failed + multiset{o.index}, firstErr := Some(OutOfWindow(o.index)), cancelled := true, pc := Closing)
    else
      rest.(pending := s.pending[o.index % c.window := Parked(o.index, o.ran.report)], pc := Committing)
  }

  function DoSelect(c: Config, s: State, step: SelectStep): State
    requires c.window > 0 && SelectEnabled(c, s, step)
  {
    match step
    case Receive => DoReceive(c, s)
    case SeeCancel => s.(pc := Closing)
  }

  predicate PersistEnabled(c: Config, s: State, step: PersistStep)
    requires c.window > 0
  {
    s.pc == Committing && (HeadPresent(c, s) <==> !step.StopCommitting?)
  }

  function DoPersist(c: Config, s: State, step: PersistStep): State
    requires c.window > 0 && PersistEnabled(c, s, step)
  {
    var slot := s.committed % c.window;
    match step
    case Commit =>
      s.(pending := s.pending - {slot}, recorded := s.recorded + [s.pending[slot].report],
         committed := s.committed + 1)
    case RecordFails(t) =>
      s.(pending := s.pending - {slot}, refused := s.refused + multiset{s.pending[slot].index},
         firstErr := Some(RecordFailed(s.committed, t)), cancelled := true, pc := Closing)
    case StopCommitting => s.(pc := if s.committed < c.count then Filling else Closing)
  }

  predicate ShutEnabled(s: State, step: ShutStep) {
    match step
    case CloseJobs => s.pc == Closing
    case WaitDone => s.pc == Waiting && s.jobs == [] && Busy(s) == 0
    case Drain => s.pc == Draining && s.outcomes != []
    case Return => s.pc == Draining && s.outcomes == []
  }

  function DoShut(c: Config, s: State, step: ShutStep): State
    requires ShutEnabled(s, step)
  {
    match step
    case CloseJobs => s.(cancelled := true, pc := Waiting)
    case WaitDone => s.(pc := Draining)
    case Drain =>
      var o := s.outcomes[0];
      s.(outcomes := s.outcomes[1..], drained := s.drained + multiset{o.index},
         firstErr := if o.ran.Hard? && s.firstErr.None? then Some(o.ran.error) else s.firstErr)
    case Return =>
      s.(pc := Returned, complete := s.firstErr.None? && !s.ctxErr && s.committed == c.count)
  }

  predicate WorkEnabled(c: Config, s: State, step: WorkStep) {
    match step
    case Take => s.jobs != [] && Busy(s) < c.workers
    case Start(i) => i in s.taken && !s.cancelled
    case Drop(i) => i in s.taken && s.cancelled
    case Finish(i, _) => i in s.running && |s.outcomes| < c.window  // a full channel blocks the send
    case WorkerCancels => s.owing > 0
  }

  function DoWork(c: Config, s: State, step: WorkStep): State
    requires WorkEnabled(c, s, step)
  {
    match step
    case Take => s.(jobs := s.jobs[1..], taken := s.taken + multiset{s.jobs[0]})
    case Start(i) => s.(taken := s.taken - multiset{i}, running := s.running + multiset{i})
    case Drop(i) => s.(taken := s.taken - multiset{i}, dropped := s.dropped + multiset{i})
    case Finish(i, ran) =>
      s.(running := s.running - multiset{i}, outcomes := s.outcomes + [Outcome(i, ran)],
         produced := s.produced[i := ran], owing := s.owing + One(ran.Hard?))
    case WorkerCancels => s.(owing := s.owing - 1, cancelled := true)
  }

  predicate ContextEnabled(s: State, step: ContextStep) {
    s.pc != Returned && match step
      case ExternalCancel => !s.ctxErr
      case PropagateCancel => s.ctxErr && !s.cancelled
  }

  function DoContext(s: State, step: ContextStep): State {
    match step
    case ExternalCancel => s.(ctxErr := true)
    case PropagateCancel => s.(cancelled := true)
  }

  predicate Enabled(c: Config, s: State, step: Step)
    requires c.window > 0
  {
    match step
    case Fill(f) => FillEnabled(c, s, f)
    case Select(x) => SelectEnabled(c, s, x)
    case Persist(p) => PersistEnabled(c, s, p)
    case Shut(d) => ShutEnabled(s, d)
    case Work(w) => WorkEnabled(c, s, w)
    case Context(x) => ContextEnabled(s, x)
  }

  function Do(c: Config, s: State, step: Step): State
    requires c.window > 0 && Enabled(c, s, step)
  {
    match step
    case Fill(f) => DoFill(c, s, f)
    case Select(x) => DoSelect(c, s, x)
    case Persist(p) => DoPersist(c, s, p)
    case Shut(d) => DoShut(c, s, d)
    case Work(w) => DoWork(c, s, w)
    case Context(x) => DoContext(s, x)
  }

  // ---------- The inductive invariant ----------

  function Indices(os: seq<Outcome>): seq<nat> { seq(|os|, i requires 0 <= i < |os| => os[i].index) }

  function RingIndices(ring: map<nat, Parked>): set<nat> { set k | k in ring :: ring[k].index }

  function One(b: bool): nat { if b then 1 else 0 }

  /** How many places index i is in, counted with multiplicity. */
  ghost function Count(s: State, i: nat): nat {
    One(i < s.committed) + One(i in RingIndices(s.pending)) + multiset(Indices(s.outcomes))[i]
    + s.running[i] + s.taken[i] + multiset(s.jobs)[i]
    + s.failed[i] + s.refused[i] + s.dropped[i] + s.drained[i]
  }

  /** Queued indices split exactly into the places: each is in one, and no other index is anywhere. */
  ghost predicate Conserved(s: State) {
    forall i: nat :: Count(s, i) == One(i < s.queued)
  }

  ghost predicate Bounds(c: Config, s: State) {
    && s.committed <= s.queued <= c.count
    && s.queued - s.committed <= c.window
    && Busy(s) <= c.workers
  }

  ghost predicate RingOk(c: Config, s: State)
    requires c.window > 0
  {
    forall k :: k in s.pending ==>
      var o := s.pending[k];
      o.index % c.window == k && s.committed <= o.index < s.queued
      && o.index in s.produced && s.produced[o.index] == Ok(o.report)
  }

  ghost predicate OutcomesOk(s: State) {
    forall k :: 0 <= k < |s.outcomes| ==>
      s.outcomes[k].index in s.produced && s.produced[s.outcomes[k].index] == s.outcomes[k].ran
  }

  /** `record` was called on results 0, 1, 2, ... in order, once each. */
  ghost predicate RecordedInOrder(s: State) {
    |s.recorded| == s.committed
    && forall k :: 0 <= k < s.committed ==> k in s.produced && s.produced[k] == Ok(s.recorded[k])
  }

  /** A hard error is either still in the channel or already in firstErr. */
  ghost predicate ErrorsKept(s: State) {
    forall i :: i in s.produced && s.produced[i].Hard? ==>
      s.firstErr.Some? || exists k :: 0 <= k < |s.outcomes| && s.outcomes[k].index == i
  }

  /** Nothing but a failing `next`, `record` or `run` makes an error. */
  ghost predicate ErrorJustified(s: State) {
    s.firstErr.Some? ==>
      s.firstErr.value.NextFailed? || s.firstErr.value.RecordFailed?
      || exists i :: i in s.produced && s.produced[i] == Hard(s.firstErr.value)
  }

  ghost predicate ControlOk(c: Config, s: State)
    requires c.window > 0
  {
    && (s.firstErr.Some? ==> s.pc in {Closing, Waiting, Draining, Returned} && s.cancelled)
    && (s.failed + s.refused + s.drained != multiset{} ==> s.pc in {Closing, Waiting, Draining, Returned})
    && (s.drained != multiset{} ==> s.pc in {Draining, Returned})
    && (s.failed + s.refused != multiset{} ==> s.firstErr.Some?)
    && (s.dropped != multiset{} ==> s.cancelled)
    && (s.pc == Selecting ==> s.committed < s.queued)
    && (s.pc in {Filling, Selecting} ==> s.committed < c.count && !HeadPresent(c, s))
    && (s.pc in {Waiting, Draining, Returned} ==> s.cancelled)
    && (s.pc in {Draining, Returned} ==> s.jobs == [] && Busy(s) == 0)
    && (s.pc == Returned ==> s.outcomes == [] && (s.complete <==> s.firstErr.None? && !s.ctxErr && s.committed == c.count))
  }

  /** Why the inner context may be done, and why the loop may have ended. */
  ghost predicate CausesOk(c: Config, s: State) {
    && (s.cancelled ==> s.ctxErr || s.firstErr.Some? || HardProduced(s) || s.pc in {Waiting, Draining, Returned})
    && (s.owing > 0 ==> HardProduced(s))
    && (s.pc in {Closing, Waiting, Draining, Returned} ==>
          s.ctxErr || s.firstErr.Some? || HardProduced(s) || s.committed == c.count)
  }

  ghost predicate HardProduced(s: State) {
    exists i :: i in s.produced && s.produced[i].Hard?
  }

  /** `produced` remembers exactly the indices whose run has ended. */
  ghost predicate ProducedOk(s: State) {
    forall i :: i in s.produced ==> i < s.queued && i !in s.running && i !in s.taken && i !in s.jobs
  }

  /** What the channels, the ring and the log hold. */
  ghost predicate DataOk(c: Config, s: State)
    requires c.window > 0
  {
    Bounds(c, s) && RingOk(c, s) && OutcomesOk(s) && ProducedOk(s) && RecordedInOrder(s)
    && ErrorsKept(s) && ErrorJustified(s)
  }

  ghost predicate Inv(c: Config, s: State) {
    ValidConfig(c) && Conserved(s) && DataOk(c, s) && ControlOk(c, s) && CausesOk(c, s)
  }

  // ---------- Every step keeps the invariant ----------

  lemma InitInv(c: Config, ctxErr: bool, cancelled: bool)
    requires ValidConfig(c) && (cancelled ==> ctxErr)
    ensures Inv(c, Init(ctxErr, cancelled))
  {
  }

  lemma IndicesAppend(os: seq<Outcome>, o: Outcome)
    ensures Indices(os + [o]) == Indices(os) + [o.index]
  {
  }

  lemma IndicesTail(os: seq<Outcome>)
    requires os != []
    ensures Indices(os) == [os[0].index] + Indices(os[1..])
  {
  }

  lemma OutcomesCount(os: seq<Outcome>, i: nat)
    requires os != []
    ensures multiset(Indices(os))[i] == One(i == os[0].index) + multiset(Indices(os[1..]))[i]
  {
    IndicesTail(os);
  }

  /** Taking one index out of a ring whose indices are distinct. */
  lemma {:induction false} RingRemove(c: Config, s: State, slot: nat)
    requires c.window > 0 && RingOk(c, s) && slot in s.pending
    ensures RingIndices(s.pending - {slot}) == RingIndices(s.pending) - {s.pending[slot].index}
    ensures s.pending[slot].index in RingIndices(s.pending)
  {
    var rest := RingIndices(s.pending - {slot});
    forall j | j in RingIndices(s.pending) && j != s.pending[slot].index ensures j in rest {
      var k :| k in s.pending && s.pending[k].index == j;
      assert k in s.pending - {slot};
    }
  }

  lemma RingInsert(ring: map<nat, Parked>, slot: nat, p: Parked)
    requires slot !in ring
    ensures RingIndices(ring[slot := p]) == RingIndices(ring) + {p.index}
  {
    var after := RingIndices(ring[slot := p]);
    forall j | j in RingIndices(ring) + {p.index} ensures j in after {
      if j == p.index {
        assert ring[slot := p][slot].index == j;
      } else {
        var k :| k in ring && ring[k].index == j;
        assert ring[slot := p][k].index == j;
      }
    }
  }

  lemma ReceiveConserves(c: Config, s: State, i: nat)
    requires c.window > 0 && s.outcomes != []
    requires multiset(Indices(s.outcomes))[i] == One(i == s.outcomes[0].index) + multiset(Indices(s.outcomes[1..]))[i]
    requires s.outcomes[0].index !in RingIndices(s.pending) && !GuardFires(c, s, s.outcomes[0].index)
    ensures Count(DoReceive(c, s), i) == Count(s, i)
  {
    var o := s.outcomes[0];
    if o.ran.Ok? {
      RingInsert(s.pending, o.index % c.window, Parked(o.index, o.ran.report));
    }
  }

  lemma {:induction false} CommitConserves(c: Config, s: State, i: nat)
    requires ValidConfig(c) && Bounds(c, s) && RingOk(c, s) && PersistEnabled(c, s, Commit)
    ensures Count(DoPersist(c, s, Commit), i) == Count(s, i)
  {
    RingRemove(c, s, s.committed % c.window);
    HeadIsNext(c, s);
  }

  lemma TakeConserves(s: State, i: nat)
    requires s.jobs != []
    ensures multiset(s.jobs)[i] == One(i == s.jobs[0]) + multiset(s.jobs[1..])[i]
  {
    assert s.jobs == [s.jobs[0]] + s.jobs[1..];
  }

  lemma {:induction false} SameSlotSameIndex(a: nat, b: nat, lo: nat, w: nat)
    requires w > 0 && lo <= a < lo + w && lo <= b < lo + w && a % w == b % w
    ensures a == b
  {
    var d := a / w - b / w;
    assert a - b == w * d by {
      assert a == w * (a / w) + a % w;
      assert b == w * (b / w) + b % w;
    }
    if d >= 1 { MulAtLeast(w, d); }
    if d <= -1 { MulAtLeast(w, -d); }
  }

  lemma MulAtLeast(w: nat, d: nat)
    requires d >= 1
    ensures w * d >= w
  {
  }

  /** The slot of the next index, when present, holds exactly that index. */
  lemma {:induction false} HeadIsNext(c: Config, s: State)
    requires ValidConfig(c) && Bounds(c, s) && RingOk(c, s) && HeadPresent(c, s)
    ensures s.pending[s.committed % c.window].index == s.committed
  {
    SameSlotSameIndex(s.pending[s.committed % c.window].index, s.committed, s.committed, c.window);
  }

  /** A running index is queued, uncommitted, and in no other place. */
  lemma RunningAlone(s: State, i: nat)
    requires Conserved(s) && i in s.running
    ensures s.running[i] == 1 && i !in s.taken && i !in s.jobs && s.committed <= i < s.queued
  {
    assert Count(s, i) == One(i < s.queued);
  }

  /** The oldest outcome is for a queued, uncommitted index. */
  lemma OutcomeAlone(s: State)
    requires Conserved(s) && s.outcomes != []
    ensures s.committed <= s.outcomes[0].index < s.queued && s.outcomes[0].index !in RingIndices(s.pending)
  {
    IndicesTail(s.outcomes);
    assert Count(s, s.outcomes[0].index) == One(s.outcomes[0].index < s.queued);
  }

  /** The duplicate/out-of-window test can never succeed. */
  lemma GuardNeverFires(c: Config, s: State)
    requires ValidConfig(c) && Conserved(s) && Bounds(c, s) && RingOk(c, s) && s.outcomes != []
    ensures !GuardFires(c, s, s.outcomes[0].index)
  {
    OutcomeAlone(s);
    var i := s.outcomes[0].index;
    if i % c.window in s.pending {
      var j := s.pending[i % c.window].index;
      SameSlotSameIndex(i, j, s.committed, c.window);
    }
  }

  lemma PersistCounts(c: Config, s: State, step: PersistStep, i: nat)
    requires ValidConfig(c) && Bounds(c, s) && RingOk(c, s) && PersistEnabled(c, s, step)
    ensures Count(DoPersist(c, s, step), i) == Count(s, i)
  {
    match step
    case Commit => CommitConserves(c, s, i);
    case RecordFails(_) => RingRemove(c, s, s.committed % c.window);
    case StopCommitting =>
  }

  lemma DrainCounts(c: Config, s: State, i: nat)
    requires ShutEnabled(s, Drain)
    ensures Count(DoShut(c, s, Drain), i) == Count(s, i)
  {
    OutcomesCount(s.outcomes, i);
  }

  lemma FinishCounts(c: Config, s: State, j: nat, ran: Ran, i: nat)
    requires WorkEnabled(c, s, Finish(j, ran))
    ensures Count(DoWork(c, s, Finish(j, ran)), i) == Count(s, i)
  {
    IndicesAppend(s.outcomes, Outcome(j, ran));
  }

  lemma StartCounts(c: Config, s: State, j: nat, i: nat)
    requires WorkEnabled(c, s, Start(j))
    ensures Count(DoWork(c, s, Start(j)), i) == Count(s, i)
  {
  }

  lemma DropCounts(c: Config, s: State, j: nat, i: nat)
    requires WorkEnabled(c, s, Drop(j))
    ensures Count(DoWork(c, s, Drop(j)), i) == Count(s, i)
  {
  }

  lemma WorkCounts(c: Config, s: State, step: WorkStep, i: nat)
    requires WorkEnabled(c, s, step)
    ensures Count(DoWork(c, s, step), i) == Count(s, i)
  {
    match step
    case Take => TakeConserves(s, i);
    case Start(j) => StartCounts(c, s, j, i);
    case Drop(j) => DropCounts(c, s, j, i);
    case Finish(j, ran) => FinishCounts(c, s, j, ran, i);
    case WorkerCancels =>
  }

  lemma FillConserves(c: Config, s: State, step: FillStep)
    requires ValidConfig(c) && Conserved(s) && FillEnabled(c, s, step)
    ensures Conserved(DoFill(c, s, step))
  {
    var t := DoFill(c, s, step);
    forall i: nat ensures Count(t, i) == One(i < t.queued) {
      assert Count(s, i) == One(i < s.queued);
    }
  }

  lemma SelectConserves(c: Config, s: State, step: SelectStep)
    requires ValidConfig(c) && Conserved(s) && Bounds(c, s) && RingOk(c, s) && SelectEnabled(c, s, step)
    ensures Conserved(DoSelect(c, s, step))
  {
    var t := DoSelect(c, s, step);
    forall i: nat ensures Count(t, i) == One(i < t.queued) {
      assert Count(s, i) == One(i < s.queued);
      if step.Receive? {
        OutcomeAlone(s);
        GuardNeverFires(c, s);
        OutcomesCount(s.outcomes, i);
        ReceiveConserves(c, s, i);
      }
    }
  }

  lemma {:induction false} PersistConserves(c: Config, s: State, step: PersistStep)
    requires ValidConfig(c) && Conserved(s) && Bounds(c, s) && RingOk(c, s) && PersistEnabled(c, s, step)
    ensures Conserved(DoPersist(c, s, step))
  {
    var t := DoPersist(c, s, step);
    forall i: nat ensures Count(t, i) == One(i < t.queued) {
      assert Count(s, i) == One(i < s.queued);
      PersistCounts(c, s, step, i);
    }
  }

  lemma ShutConserves(c: Config, s: State, step: ShutStep)
    requires ValidConfig(c) && Conserved(s) && ShutEnabled(s, step)
    ensures Conserved(DoShut(c, s, step))
  {
    var t := DoShut(c, s, step);
    forall i: nat ensures Count(t, i) == One(i < t.queued) {
      assert Count(s, i) == One(i < s.queued);
      if step.Drain? {
        DrainCounts(c, s, i);
      }
    }
  }

  lemma WorkConserves(c: Config, s: State, step: WorkStep)
    requires ValidConfig(c) && Conserved(s) && WorkEnabled(c, s, step)
    ensures Conserved(DoWork(c, s, step))
  {
    var t := DoWork(c, s, step);
    forall i: nat ensures Count(t, i) == One(i < t.queued) {
      assert Count(s, i) == One(i < s.queued);
      WorkCounts(c, s, step, i);
    }
  }

  lemma ContextConserves(c: Config, s: State, step: ContextStep)
    requires ValidConfig(c) && Conserved(s) && ContextEnabled(s, step)
    ensures Conserved(DoContext(s, step))
  {
    forall i: nat ensures Count(DoContext(s, step), i) == One(i < s.queued) {
      assert Count(s, i) == One(i < s.queued);
    }
  }

  lemma FillData(c: Config, s: State, step: FillStep)
    requires ValidConfig(c) && DataOk(c, s) && FillEnabled(c, s, step)
    ensures DataOk(c, DoFill(c, s, step))
  {
  }

  lemma ReceiveErrors(c: Config, s: State)
    requires ValidConfig(c) && OutcomesOk(s) && ErrorsKept(s) && s.outcomes != [] && s.firstErr.None?
    requires !GuardFires(c, s, s.outcomes[0].index)
    ensures ErrorsKept(DoReceive(c, s)) && ErrorJustified(DoReceive(c, s))
  {
    var t := DoReceive(c, s);
    forall j | j in t.produced && t.produced[j].Hard? && t.firstErr.None?
      ensures exists k :: 0 <= k < |t.outcomes| && t.outcomes[k].index == j
    {
      var k :| 0 <= k < |s.outcomes| && s.outcomes[k].index == j;
      assert t.outcomes[k - 1].index == j;
    }
  }

  lemma ReceiveRing(c: Config, s: State)
    requires ValidConfig(c) && RingOk(c, s) && OutcomesOk(s) && s.outcomes != []
    requires !GuardFires(c, s, s.outcomes[0].index)
    ensures RingOk(c, DoReceive(c, s)) && OutcomesOk(DoReceive(c, s))
  {
  }

  lemma {:induction false} ReceiveData(c: Config, s: State)
    requires ValidConfig(c) && DataOk(c, s) && s.firstErr.None? && s.outcomes != []
    requires !GuardFires(c, s, s.outcomes[0].index)
    ensures DataOk(c, DoReceive(c, s))
  {
    ReceiveErrors(c, s);
    ReceiveRing(c, s);
  }

  lemma {:induction false} HeadLeavesRing(c: Config, s: State, step: PersistStep)
    requires ValidConfig(c) && DataOk(c, s) && PersistEnabled(c, s, step) && !step.StopCommitting?
    ensures RingOk(c, DoPersist(c, s, step))
  {
    var t := DoPersist(c, s, step);
    HeadIsNext(c, s);
    forall k | k in t.pending ensures t.committed <= t.pending[k].index { NotTheHead(c, s, k); }
  }

  /** What is parked in another slot comes later. */
  lemma {:induction false} NotTheHead(c: Config, s: State, k: nat)
    requires ValidConfig(c) && RingOk(c, s) && k in s.pending && k != s.committed % c.window
    ensures s.committed < s.pending[k].index
  {
  }

  lemma {:induction false} CommitLogs(c: Config, s: State)
    requires ValidConfig(c) && DataOk(c, s) && PersistEnabled(c, s, Commit)
    ensures RecordedInOrder(DoPersist(c, s, Commit))
  {
    HeadIsNext(c, s);
  }

  lemma {:induction false} PersistErrors(c: Config, s: State, step: PersistStep)
    requires ValidConfig(c) && DataOk(c, s) && PersistEnabled(c, s, step)
    ensures ErrorsKept(DoPersist(c, s, step)) && ErrorJustified(DoPersist(c, s, step))
  {
  }

  lemma {:induction false} PersistData(c: Config, s: State, step: PersistStep)
    requires ValidConfig(c) && DataOk(c, s) && PersistEnabled(c, s, step)
    ensures DataOk(c, DoPersist(c, s, step))
  {
    PersistErrors(c, s, step);
    if !step.StopCommitting? {
      HeadLeavesRing(c, s, step);
      HeadIsNext(c, s);
    }
    if step.Commit? { CommitLogs(c, s); }
  }

  lemma ShutData(c: Config, s: State, step: ShutStep)
    requires ValidConfig(c) && DataOk(c, s) && ShutEnabled(s, step)
    ensures DataOk(c, DoShut(c, s, step))
  {
  }

  lemma {:induction false} FinishData(c: Config, s: State, i: nat, ran: Ran)
    requires ValidConfig(c) && DataOk(c, s) && WorkEnabled(c, s, Finish(i, ran))
    requires s.running[i] == 1 && i !in s.taken && i !in s.jobs && s.committed <= i < s.queued
    ensures DataOk(c, DoWork(c, s, Finish(i, ran)))
  {
    var t := DoWork(c, s, Finish(i, ran));
    assert ErrorJustified(t) by {
      if s.firstErr.Some? && !s.firstErr.value.NextFailed? && !s.firstErr.value.RecordFailed? {
        var j :| j in s.produced && s.produced[j] == Hard(s.firstErr.value);
        assert t.produced[j] == Hard(s.firstErr.value);
      }
    }
    assert ErrorsKept(t) by {
      forall j | j in t.produced && t.produced[j].Hard? && t.firstErr.None?
        ensures exists k :: 0 <= k < |t.outcomes| && t.outcomes[k].index == j
      {
        if j == i {
          assert t.outcomes[|s.outcomes|].index == i;
        } else {
          var k :| 0 <= k < |s.outcomes| && s.outcomes[k].index == j;
          assert t.outcomes[k].index == j;
        }
      }
    }
  }

  lemma WorkData(c: Config, s: State, step: WorkStep)
    requires ValidConfig(c) && DataOk(c, s) && WorkEnabled(c, s, step) && !step.Finish?
    ensures DataOk(c, DoWork(c, s, step))
  {
  }

  lemma ContextData(c: Config, s: State, step: ContextStep)
    requires ValidConfig(c) && DataOk(c, s) && ContextEnabled(s, step)
    ensures DataOk(c, DoContext(s, step))
  {
  }

  lemma FillControl(c: Config, s: State, step: FillStep)
    requires ValidConfig(c) && Bounds(c, s) && ControlOk(c, s) && CausesOk(c, s) && FillEnabled(c, s, step)
    ensures ControlOk(c, DoFill(c, s, step)) && CausesOk(c, DoFill(c, s, step))
  {
  }

  lemma SelectControl(c: Config, s: State, step: SelectStep)
    requires step.Receive? && s.outcomes != [] && c.window > 0 ==> !GuardFires(c, s, s.outcomes[0].index)
    requires ValidConfig(c) && Bounds(c, s) && ControlOk(c, s) && CausesOk(c, s) && SelectEnabled(c, s, step)
    ensures ControlOk(c, DoSelect(c, s, step)) && CausesOk(c, DoSelect(c, s, step))
  {
  }

  lemma {:induction false} PersistControl(c: Config, s: State, step: PersistStep)
    requires ValidConfig(c) && Bounds(c, s) && ControlOk(c, s) && CausesOk(c, s) && PersistEnabled(c, s, step)
    ensures ControlOk(c, DoPersist(c, s, step)) && CausesOk(c, DoPersist(c, s, step))
  {
  }

  lemma {:induction false} ShutCauses(c: Config, s: State, step: ShutStep)
    requires ValidConfig(c) && CausesOk(c, s) && ShutEnabled(s, step)
    ensures CausesOk(c, DoShut(c, s, step))
  {
  }

  lemma {:induction false} ShutControl(c: Config, s: State, step: ShutStep)
    requires ValidConfig(c) && Bounds(c, s) && ControlOk(c, s) && CausesOk(c, s) && ShutEnabled(s, step)
    ensures ControlOk(c, DoShut(c, s, step)) && CausesOk(c, DoShut(c, s, step))
  {
    ShutCauses(c, s, step);
  }

  lemma {:induction false} WorkControl(c: Config, s: State, step: WorkStep)
    requires ValidConfig(c) && Bounds(c, s) && ControlOk(c, s) && CausesOk(c, s) && WorkEnabled(c, s, step)
    requires step.Finish? ==> step.i !in s.produced
    ensures ControlOk(c, DoWork(c, s, step)) && CausesOk(c, DoWork(c, s, step))
  {
    if step.Finish? {
      var t := DoWork(c, s, step);
      assert step.i in t.produced;
      if HardProduced(s) {
        var j :| j in s.produced && s.produced[j].Hard?;
        assert t.produced[j].Hard?;
      }
    }
  }

  lemma ContextControl(c: Config, s: State, step: ContextStep)
    requires ValidConfig(c) && Bounds(c, s) && ControlOk(c, s) && CausesOk(c, s) && ContextEnabled(s, step)
    ensures ControlOk(c, DoContext(s, step)) && CausesOk(c, DoContext(s, step))
  {
  }

  lemma {:induction false} WorkKeepsInv(c: Config, s: State, w: WorkStep)
    requires Inv(c, s) && WorkEnabled(c, s, w)
    ensures Inv(c, DoWork(c, s, w))
  {
    WorkConserves(c, s, w);
    WorkControl(c, s, w);
    if w.Finish? {
      RunningAlone(s, w.i);
      FinishData(c, s, w.i, w.ran);
    } else {
      WorkData(c, s, w);
    }
  }

  /** Every action of either side keeps the invariant. */
  lemma {:induction false} StepKeepsInv(c: Config, s: State, step: Step)
    requires Inv(c, s) && Enabled(c, s, step)
    ensures Inv(c, Do(c, s, step))
  {
    match step
    case Fill(f) => FillConserves(c, s, f); FillData(c, s, f); FillControl(c, s, f);
    case Select(x) =>
      if x.Receive? { GuardNeverFires(c, s); ReceiveData(c, s); }
      SelectConserves(c, s, x); SelectControl(c, s, x);
    case Persist(p) => PersistConserves(c, s, p); PersistData(c, s, p); PersistControl(c, s, p);
    case Shut(d) => ShutConserves(c, s, d); ShutData(c, s, d); ShutControl(c, s, d);
    case Work(w) => WorkKeepsInv(c, s, w);
    case Context(x) => ContextConserves(c, s, x); ContextData(c, s, x); ContextControl(c, s, x);
  }

  // ---------- No send ever blocks ----------

  lemma InSpan(m: multiset<nat>, lo: nat, hi: nat)
    requires lo <= hi && forall i: nat :: m[i] <= One(lo <= i < hi)
    ensures |m| <= hi - lo
  {
    if lo == hi {
      assert m == multiset{};
    } else {
      InSpan(m - multiset{hi - 1}, lo, hi - 1);
      if hi - 1 in m {
        assert m == (m - multiset{hi - 1}) + multiset{hi - 1};
      } else {
        assert m == m - multiset{hi - 1};
      }
    }
  }

  /** Whenever the coordinator queues or a worker sends, the channel has room. */
  lemma SendsNeverBlock(c: Config, s: State)
    requires Inv(c, s)
    ensures |s.jobs| <= c.window && |s.outcomes| <= c.window
    ensures MayQueue(c, s) ==> |s.jobs| < c.window
    ensures s.running != multiset{} ==> |s.outcomes| < c.window
  {
    forall i: nat ensures multiset(s.jobs)[i] <= One(s.committed <= i < s.queued)
                  ensures multiset(Indices(s.outcomes))[i] <= One(s.committed <= i < s.queued) {
      assert Count(s, i) == One(i < s.queued);
    }
    InSpan(multiset(s.jobs), s.committed, s.queued);
    InSpan(multiset(Indices(s.outcomes)), s.committed, s.queued);
    if s.running != multiset{} {
      var j :| j in s.running;
      var m := multiset(Indices(s.outcomes)) + multiset{j};
      forall i: nat ensures m[i] <= One(s.committed <= i < s.queued) {
        assert Count(s, i) == One(i < s.queued);
      }
      InSpan(m, s.committed, s.queued);
    }
  }

  // ---------- Every run ends ----------

  function PcRank(pc: Pc): nat {
    match pc
    case Committing => 6
    case Filling => 5
    case Selecting => 4
    case Closing => 3
    case Waiting => 2
    case Draining => 1
    case Returned => 0
  }

  function Rank(c: Config, s: State): int {
    9 * (c.count - s.queued) + 8 * |s.jobs| + 7 * |s.taken| + 6 * |s.running| + 4 * |s.outcomes| + s.owing
    + |s.pending| + PcRank(s.pc) + One(!s.ctxErr) + One(!s.cancelled)
  }

  lemma OneLess(m: multiset<nat>, i: nat)
    requires i in m
    ensures |m - multiset{i}| == |m| - 1
  {
    assert m == (m - multiset{i}) + multiset{i};
  }

  lemma WorkRankFalls(c: Config, s: State, w: WorkStep)
    requires WorkEnabled(c, s, w)
    ensures Rank(c, DoWork(c, s, w)) < Rank(c, s)
  {
    match w
    case Take =>
    case Start(i) => OneLess(s.taken, i);
    case Drop(i) => OneLess(s.taken, i);
    case Finish(i, _) => OneLess(s.running, i);
    case WorkerCancels =>
  }

  lemma ReceiveRankFalls(c: Config, s: State)
    requires c.window > 0 && s.outcomes != [] && s.pc == Selecting
    requires !GuardFires(c, s, s.outcomes[0].index)
    ensures Rank(c, DoReceive(c, s)) < Rank(c, s)
  {
  }

  lemma PersistRankFalls(c: Config, s: State, p: PersistStep)
    requires c.window > 0 && PersistEnabled(c, s, p)
    ensures Rank(c, DoPersist(c, s, p)) < Rank(c, s)
  {
    if !p.StopCommitting? {
      RingShrinks(s.pending, s.committed % c.window);
    }
  }

  lemma ShutRankFalls(c: Config, s: State, d: ShutStep)
    requires ShutEnabled(s, d)
    ensures Rank(c, DoShut(c, s, d)) < Rank(c, s)
  {
  }

  lemma FillRankFalls(c: Config, s: State, f: FillStep)
    requires FillEnabled(c, s, f)
    ensures Rank(c, DoFill(c, s, f)) < Rank(c, s)
  {
  }

  /** Every step, the caller's cancellation included, lowers the rank. */
  lemma {:induction false} RankFalls(c: Config, s: State, step: Step)
    requires c.window > 0 && Enabled(c, s, step)
    requires step == Select(Receive) ==> !GuardFires(c, s, s.outcomes[0].index)
    ensures Rank(c, Do(c, s, step)) < Rank(c, s)
  {
    match step
    case Fill(f) => FillRankFalls(c, s, f);
    case Select(x) => if x.Receive? { ReceiveRankFalls(c, s); }
    case Persist(p) => PersistRankFalls(c, s, p);
    case Shut(d) => ShutRankFalls(c, s, d);
    case Work(w) => WorkRankFalls(c, s, w);
    case Context(x) =>
  }

  lemma RingShrinks(ring: map<nat, Parked>, slot: nat)
    requires slot in ring
    ensures |ring - {slot}| == |ring| - 1
  {
    assert (ring - {slot}).Keys == ring.Keys - {slot};
  }

  /** While it waits in the select, some index is outside the ring. */
  lemma SelectingIsServed(c: Config, s: State)
    requires Inv(c, s) && s.pc == Selecting && !s.cancelled
    ensures s.outcomes != [] || s.running != multiset{} || s.taken != multiset{} || s.jobs != []
  {
    var i := s.committed;
    assert Count(s, i) == 1;
    assert i !in RingIndices(s.pending);
    if s.outcomes == [] {
      assert Indices(s.outcomes) == [];
    }
  }

  /** As long as it has not returned, some side can move without any help from the caller. */
  lemma Progress(c: Config, s: State) returns (step: Step)
    requires Inv(c, s) && s.pc != Returned
    ensures !step.Context? && Enabled(c, s, step)
  {
    match s.pc
    case Filling =>
      SendsNeverBlock(c, s);
      step := Fill(if MayQueue(c, s) then Queue else StopFilling);
    case Selecting =>
      if s.cancelled {
        step := Select(SeeCancel);
      } else if s.outcomes != [] {
        step := Select(Receive);
      } else {
        SelectingIsServed(c, s);
        step := WorkersMove(c, s);
      }
    case Committing => step := Persist(if HeadPresent(c, s) then Commit else StopCommitting);
    case Closing => step := Shut(CloseJobs);
    case Waiting =>
      if s.jobs == [] && Busy(s) == 0 {
        step := Shut(WaitDone);
      } else {
        step := WorkersMove(c, s);
      }
    case Draining => step := Shut(if s.outcomes != [] then Drain else Return);
  }

  lemma WorkersMove(c: Config, s: State) returns (step: Step)
    requires Inv(c, s) && (s.jobs != [] || Busy(s) > 0)
    ensures step.Work? && Enabled(c, s, step)
  {
    SendsNeverBlock(c, s);
    if s.owing > 0 {
      step := Work(WorkerCancels);
    } else if s.running != multiset{} {
      var i :| i in s.running;
      var ran: Ran :| true;
      step := Work(Finish(i, ran));
    } else if s.taken != multiset{} {
      var i :| i in s.taken;
      step := Work(if s.cancelled then Drop(i) else Start(i));
    } else {
      step := Work(Take);
    }
  }

  // ---------- Whole runs ----------

  /** `steps` is a run from s to t: each step is enabled where it is taken. */
  ghost predicate Run(c: Config, s: State, steps: seq<Step>, t: State)
    requires c.window > 0
    decreases |steps|
  {
    if steps == [] then s == t
    else Enabled(c, s, steps[0]) && Run(c, Do(c, s, steps[0]), steps[1..], t)
  }

  lemma {:induction false} RunKeepsInv(c: Config, s: State, steps: seq<Step>, t: State)
    requires Inv(c, s) && Run(c, s, steps, t)
    ensures Inv(c, t) && |steps| + Rank(c, t) <= Rank(c, s)
    decreases |steps|
  {
    if steps != [] {
      if steps[0] == Select(Receive) { GuardNeverFires(c, s); }
      StepKeepsInv(c, s, steps[0]);
      RankFalls(c, s, steps[0]);
      RunKeepsInv(c, Do(c, s, steps[0]), steps[1..], t);
    }
  }

  /** Safety, in every reachable state of every interleaving. */
  lemma EveryReachableState(c: Config, ctxErr: bool, cancelled: bool, steps: seq<Step>, t: State)
    requires ValidConfig(c) && (cancelled ==> ctxErr) && Run(c, Init(ctxErr, cancelled), steps, t)
    ensures Conserved(t) && RecordedInOrder(t)
    ensures t.queued - t.committed <= c.window && |t.jobs| <= c.window && |t.outcomes| <= c.window
    ensures t.dropped != multiset{} ==> t.cancelled
    ensures |t.taken| + |t.running| <= c.workers
    ensures HardProduced(t) ==> t.owing > 0 || t.cancelled
    ensures MayQueue(c, t) ==> |t.jobs| < c.window
    ensures t.running != multiset{} ==> |t.outcomes| < c.window
    ensures t.outcomes != [] ==> !GuardFires(c, t, t.outcomes[0].index)
  {
    InitInv(c, ctxErr, cancelled);
    RunKeepsInv(c, Init(ctxErr, cancelled), steps, t);
    HardErrorCancels(c, Init(ctxErr, cancelled), steps, t);
    SendsNeverBlock(c, t);
    if t.outcomes != [] { GuardNeverFires(c, t); }
  }

  /** Termination: no run is longer than the initial rank, and a run that cannot be continued
      by the coordinator or a worker has returned. */
  lemma EveryRunEnds(c: Config, ctxErr: bool, cancelled: bool, steps: seq<Step>, t: State)
    requires ValidConfig(c) && (cancelled ==> ctxErr) && Run(c, Init(ctxErr, cancelled), steps, t)
    ensures |steps| <= 9 * c.count + 7
    ensures (forall step: Step | !step.Context? :: !Enabled(c, t, step)) <==> t.pc == Returned
  {
    InitInv(c, ctxErr, cancelled);
    RunKeepsInv(c, Init(ctxErr, cancelled), steps, t);
    if t.pc != Returned {
      var step := Progress(c, t);
    } else {
      assert t.running == multiset{} && t.taken == multiset{};
    }
  }

  // ---------- Failures surface ----------

  /** A step in which `next`, `record` or `run` fails. */
  predicate Failing(step: Step) {
    match step
    case Fill(NextFails(_)) => true
    case Persist(RecordFails(_)) => true
    case Work(Finish(_, ran)) => ran.Hard?
    case _ => false
  }

  ghost predicate Failed(s: State) { s.firstErr.Some? || HardProduced(s) }

  lemma {:induction false} ReceiveFails(c: Config, s: State)
    requires Inv(c, s) && s.pc == Selecting && s.outcomes != []
    ensures Failed(DoReceive(c, s)) <==> Failed(s)
  {
    GuardNeverFires(c, s);
    if s.outcomes[0].ran.Hard? { assert s.produced[s.outcomes[0].index].Hard?; }
  }

  lemma {:induction false} ShutFails(c: Config, s: State, step: ShutStep)
    requires OutcomesOk(s) && ShutEnabled(s, step)
    ensures Failed(DoShut(c, s, step)) <==> Failed(s)
  {
    if step.Drain? && s.outcomes[0].ran.Hard? { assert s.produced[s.outcomes[0].index].Hard?; }
  }

  lemma {:induction false} OneMoreProduced(s: State, i: nat, ran: Ran)
    requires i !in s.produced
    ensures HardProduced(s.(produced := s.produced[i := ran])) <==> HardProduced(s) || ran.Hard?
  {
    var t := s.(produced := s.produced[i := ran]);
    assert t.produced[i] == ran;
    if HardProduced(s) {
      var j :| j in s.produced && s.produced[j].Hard?;
      assert t.produced[j].Hard?;
    }
  }

  lemma {:induction false} SameProduced(s: State, t: State)
    requires s.produced == t.produced
    ensures HardProduced(s) <==> HardProduced(t)
  {
  }

  lemma {:induction false} FinishFails(c: Config, s: State, i: nat, ran: Ran)
    requires ProducedOk(s) && WorkEnabled(c, s, Finish(i, ran))
    ensures Failed(DoWork(c, s, Finish(i, ran))) <==> Failed(s) || Failing(Work(Finish(i, ran)))
  {
    OneMoreProduced(s, i, ran);
    SameProduced(DoWork(c, s, Finish(i, ran)), s.(produced := s.produced[i := ran]));
  }

  lemma {:induction false} OtherWorkFails(c: Config, s: State, step: WorkStep)
    requires WorkEnabled(c, s, step) && !step.Finish?
    ensures Failed(DoWork(c, s, step)) <==> Failed(s) || Failing(Work(step))
  {
    SameProduced(s, DoWork(c, s, step));
  }

  lemma {:induction false} WorkFails(c: Config, s: State, step: WorkStep)
    requires ProducedOk(s) && WorkEnabled(c, s, step)
    ensures Failed(DoWork(c, s, step)) <==> Failed(s) || Failing(Work(step))
  {
    match step
    case Finish(i, ran) => FinishFails(c, s, i, ran);
    case _ => OtherWorkFails(c, s, step);
  }

  lemma {:induction false} FillFails(c: Config, s: State, step: FillStep)
    requires FillEnabled(c, s, step)
    ensures Failed(DoFill(c, s, step)) <==> Failed(s) || Failing(Fill(step))
  {
  }

  lemma {:induction false} PersistFails(c: Config, s: State, step: PersistStep)
    requires c.window > 0 && PersistEnabled(c, s, step)
    ensures Failed(DoPersist(c, s, step)) <==> Failed(s) || Failing(Persist(step))
  {
  }

  lemma {:induction false} StepFails(c: Config, s: State, step: Step)
    requires Inv(c, s) && Enabled(c, s, step)
    ensures Failed(Do(c, s, step)) <==> Failed(s) || Failing(step)
  {
    match step
    case Fill(f) => FillFails(c, s, f);
    case Select(x) => if x.Receive? { ReceiveFails(c, s); }
    case Persist(p) => PersistFails(c, s, p);
    case Shut(d) => ShutFails(c, s, d);
    case Work(w) => WorkFails(c, s, w);
    case Context(_) =>
  }

  ghost predicate AnyFails(steps: seq<Step>) { exists k :: 0 <= k < |steps| && Failing(steps[k]) }

  lemma AnyFailsFirst(steps: seq<Step>)
    requires steps != []
    ensures AnyFails(steps) <==> Failing(steps[0]) || AnyFails(steps[1..])
  {
    if k :| 0 <= k < |steps| && Failing(steps[k]) { assert k == 0 || Failing(steps[1..][k - 1]); }
    if k :| 0 <= k < |steps[1..]| && Failing(steps[1..][k]) { assert Failing(steps[k + 1]); }
  }

  lemma {:induction false} RunFails(c: Config, s: State, steps: seq<Step>, t: State)
    requires Inv(c, s) && Run(c, s, steps, t)
    ensures Failed(t) <==> Failed(s) || AnyFails(steps)
    decreases |steps|
  {
    if steps != [] {
      StepKeepsInv(c, s, steps[0]);
      StepFails(c, s, steps[0]);
      RunFails(c, Do(c, s, steps[0]), steps[1..], t);
      AnyFailsFirst(steps);
    }
  }

  /** The call returns an error exactly when a `next`, a `record` or a `run` failed in its run. */
  lemma {:induction false} FailuresSurface(c: Config, ctxErr: bool, cancelled: bool, steps: seq<Step>, t: State)
    requires ValidConfig(c) && (cancelled ==> ctxErr) && Run(c, Init(ctxErr, cancelled), steps, t) && t.pc == Returned
    ensures t.firstErr.Some? <==> AnyFails(steps)
  {
    InitInv(c, ctxErr, cancelled);
    RunKeepsInv(c, Init(ctxErr, cancelled), steps, t);
    ReturnedResult(c, t);
    RunFails(c, Init(ctxErr, cancelled), steps, t);
  }

  /** Once the inner context is done nothing is queued, and no mutant starts to run, any more. */
  lemma {:induction false} NothingStarts(c: Config, s: State, steps: seq<Step>, t: State)
    requires c.window > 0 && Run(c, s, steps, t) && s.cancelled
    ensures t.cancelled && Fill(Queue) !in steps && forall i :: Work(Start(i)) !in steps
    decreases |steps|
  {
    if steps != [] {
      StaysCancelled(c, s, steps[0]);
      NothingStarts(c, Do(c, s, steps[0]), steps[1..], t);
      assert steps == [steps[0]] + steps[1..];
    }
  }

  lemma {:induction false} StaysCancelled(c: Config, s: State, step: Step)
    requires c.window > 0 && Enabled(c, s, step) && s.cancelled
    ensures Do(c, s, step).cancelled && step != Fill(Queue) && !(step.Work? && step.work.Start?)
  {
    if step == Select(Receive) { ReceivingStaysCancelled(c, s); }
  }

  lemma {:induction false} ReceivingStaysCancelled(c: Config, s: State)
    requires c.window > 0 && s.outcomes != [] && s.cancelled
    ensures DoReceive(c, s).cancelled
  {
  }

  /** After a worker's hard error the inner context is done, or that worker is about to see to it. */
  ghost predicate Alarmed(s: State) { HardProduced(s) ==> s.owing > 0 || s.cancelled }

  lemma {:induction false} FinishAlarms(c: Config, s: State, i: nat, ran: Ran)
    requires ProducedOk(s) && WorkEnabled(c, s, Finish(i, ran)) && Alarmed(s)
    ensures Alarmed(DoWork(c, s, Finish(i, ran)))
  {
    OneMoreProduced(s, i, ran);
    SameProduced(DoWork(c, s, Finish(i, ran)), s.(produced := s.produced[i := ran]));
  }

  lemma {:induction false} QuietlyAlarmed(s: State, t: State)
    requires Alarmed(s) && t.produced == s.produced && (t.owing == s.owing || t.cancelled) && (s.cancelled ==> t.cancelled)
    ensures Alarmed(t)
  {
    SameProduced(s, t);
  }

  lemma {:induction false} StepAlarms(c: Config, s: State, step: Step)
    requires c.window > 0 && ProducedOk(s) && Enabled(c, s, step) && Alarmed(s)
    ensures Alarmed(Do(c, s, step))
  {
    if step.Work? && step.work.Finish? {
      FinishAlarms(c, s, step.work.i, step.work.ran);
    } else {
      OtherAlarms(c, s, step);
    }
  }

  lemma {:induction false} OtherAlarms(c: Config, s: State, step: Step)
    requires c.window > 0 && Enabled(c, s, step) && !(step.Work? && step.work.Finish?) && Alarmed(s)
    ensures Alarmed(Do(c, s, step))
  {
    if step.Work? {
      WorkAlarms(c, s, step.work);
    } else {
      OnlyWorkersProduce(c, s, step);
      OwedUntilCancelled(c, s, step);
      if s.cancelled { StaysCancelled(c, s, step); }
      QuietlyAlarmed(s, Do(c, s, step));
    }
  }

  lemma {:induction false} WorkAlarms(c: Config, s: State, w: WorkStep)
    requires WorkEnabled(c, s, w) && !w.Finish? && Alarmed(s)
    ensures Alarmed(DoWork(c, s, w))
  {
    QuietlyAlarmed(s, DoWork(c, s, w));
  }

  lemma {:induction false} OwedUntilCancelled(c: Config, s: State, step: Step)
    requires c.window > 0 && Enabled(c, s, step) && !step.Work?
    ensures Do(c, s, step).owing == s.owing
  {
    if step == Select(Receive) { ReceivingOwes(c, s); }
  }

  lemma {:induction false} ReceivingOwes(c: Config, s: State)
    requires c.window > 0 && s.outcomes != []
    ensures DoReceive(c, s).owing == s.owing
  {
  }

  /** In every reachable state a hard error has cancelled the rest, or is about to. */
  lemma {:induction false} HardErrorCancels(c: Config, s: State, steps: seq<Step>, t: State)
    requires Inv(c, s) && Alarmed(s) && Run(c, s, steps, t)
    ensures Alarmed(t)
    decreases |steps|
  {
    if steps != [] {
      StepKeepsInv(c, s, steps[0]);
      StepAlarms(c, s, steps[0]);
      HardErrorCancels(c, Do(c, s, steps[0]), steps[1..], t);
    }
  }

  // ---------- Which error ----------

  /** In state s the step is a failing `next` or `record`, and the error names the index that was to be read or
      recorded and carries the text. */
  predicate Raises(s: State, step: Step, e: Error) {
    match step
    case Fill(NextFails(t)) => e == NextFailed(s.queued, t)
    case Persist(RecordFails(t)) => e == RecordFailed(s.committed, t)
    case _ => false
  }

  /** The k-th step of the run raises the error. */
  ghost predicate RaisedAt(c: Config, s: State, steps: seq<Step>, k: nat, mid: State, e: Error)
    requires c.window > 0
  {
    k < |steps| && Run(c, s, steps[..k], mid) && Raises(mid, steps[k], e)
  }

  /** A worker's `run` gave the error. */
  predicate Given(s: State, e: Error) { exists i :: i in s.produced && s.produced[i] == Hard(e) }

  lemma {:induction false} WorkKeepsProduced(c: Config, s: State, w: WorkStep, i: nat)
    requires ProducedOk(s) && WorkEnabled(c, s, w) && i in s.produced
    ensures i in DoWork(c, s, w).produced && DoWork(c, s, w).produced[i] == s.produced[i]
  {
  }

  lemma {:induction false} PersistingProducesNothing(c: Config, s: State, p: PersistStep)
    requires c.window > 0 && PersistEnabled(c, s, p)
    ensures DoPersist(c, s, p).produced == s.produced
  {
  }

  lemma {:induction false} ReceivingProducesNothing(c: Config, s: State)
    requires c.window > 0 && s.outcomes != []
    ensures DoReceive(c, s).produced == s.produced
  {
  }

  lemma {:induction false} SelectingProducesNothing(c: Config, s: State, x: SelectStep)
    requires c.window > 0 && SelectEnabled(c, s, x)
    ensures DoSelect(c, s, x).produced == s.produced
  {
    if x.Receive? { ReceivingProducesNothing(c, s); }
  }

  lemma {:induction false} ShuttingProducesNothing(c: Config, s: State, d: ShutStep)
    requires ShutEnabled(s, d)
    ensures DoShut(c, s, d).produced == s.produced
  {
  }

  lemma {:induction false} OnlyWorkersProduce(c: Config, s: State, step: Step)
    requires c.window > 0 && Enabled(c, s, step) && !step.Work?
    ensures Do(c, s, step).produced == s.produced
  {
    match step
    case Fill(_) =>
    case Select(x) => SelectingProducesNothing(c, s, x);
    case Persist(p) => PersistingProducesNothing(c, s, p);
    case Shut(d) => ShuttingProducesNothing(c, s, d);
    case Context(_) =>
  }

  lemma {:induction false} StepProduces(c: Config, s: State, step: Step, i: nat)
    requires c.window > 0 && Enabled(c, s, step)
    ensures i in Do(c, s, step).produced && i !in s.produced ==> step == Work(Finish(i, Do(c, s, step).produced[i]))
  {
    if !step.Work? { OnlyWorkersProduce(c, s, step); }
  }

  lemma {:induction false} StepKeepsProduced(c: Config, s: State, step: Step, i: nat)
    requires c.window > 0 && ProducedOk(s) && Enabled(c, s, step) && i in s.produced
    ensures i in Do(c, s, step).produced && Do(c, s, step).produced[i] == s.produced[i]
  {
    if step.Work? {
      WorkKeepsProduced(c, s, step.work, i);
    } else {
      OnlyWorkersProduce(c, s, step);
    }
  }

  lemma {:induction false} RunKeepsProduced(c: Config, s: State, steps: seq<Step>, t: State, i: nat)
    requires Inv(c, s) && Run(c, s, steps, t) && i in s.produced
    ensures i in t.produced && t.produced[i] == s.produced[i]
    decreases |steps|
  {
    if steps != [] {
      StepKeepsInv(c, s, steps[0]);
      StepKeepsProduced(c, s, steps[0], i);
      RunKeepsProduced(c, Do(c, s, steps[0]), steps[1..], t, i);
    }
  }

  /** Nothing is taken for produced that no worker has sent. */
  lemma {:induction false} ProducedBySomeone(c: Config, s: State, steps: seq<Step>, t: State, i: nat)
    requires Inv(c, s) && Run(c, s, steps, t) && i in t.produced && i !in s.produced
    ensures Work(Finish(i, t.produced[i])) in steps
    decreases |steps|
  {
    var mid := Do(c, s, steps[0]);
    StepKeepsInv(c, s, steps[0]);
    StepProduces(c, s, steps[0], i);
    if i in mid.produced {
      RunKeepsProduced(c, mid, steps[1..], t, i);
    } else {
      ProducedBySomeone(c, mid, steps[1..], t, i);
    }
  }

  lemma {:induction false} ErrorStaysOne(c: Config, s: State, step: Step)
    requires c.window > 0 && Enabled(c, s, step) && s.firstErr.Some? && s.pc in {Closing, Waiting, Draining, Returned}
    ensures Do(c, s, step).firstErr == s.firstErr
  {
    match step
    case Shut(_) =>
    case Work(_) =>
    case Context(_) =>
    case _ => assert false;
  }

  /** The first error is kept. */
  lemma {:induction false} ErrorStays(c: Config, s: State, steps: seq<Step>, t: State)
    requires Inv(c, s) && Run(c, s, steps, t) && s.firstErr.Some?
    ensures t.firstErr == s.firstErr
    decreases |steps|
  {
    if steps != [] {
      StepKeepsInv(c, s, steps[0]);
      ErrorStaysOne(c, s, steps[0]);
      ErrorStays(c, Do(c, s, steps[0]), steps[1..], t);
    }
  }

  lemma {:induction false} ReceivedIsGiven(c: Config, s: State)
    requires c.window > 0 && OutcomesOk(s) && s.outcomes != [] && s.firstErr.None?
    ensures s.outcomes[0].ran.Hard? ==> Given(s, s.outcomes[0].ran.error)
  {
    assert s.produced[s.outcomes[0].index] == s.outcomes[0].ran;
  }

  lemma {:induction false} ReceiveAppears(c: Config, s: State)
    requires c.window > 0 && OutcomesOk(s) && s.outcomes != [] && s.firstErr.None? && !GuardFires(c, s, s.outcomes[0].index)
    ensures DoReceive(c, s).firstErr.Some? ==> Given(s, DoReceive(c, s).firstErr.value)
  {
    ReceivedIsGiven(c, s);
  }

  lemma {:induction false} ShutAppears(c: Config, s: State, d: ShutStep)
    requires c.window > 0 && OutcomesOk(s) && ShutEnabled(s, d) && s.firstErr.None?
    ensures DoShut(c, s, d).firstErr.Some? ==> Given(s, DoShut(c, s, d).firstErr.value)
  {
    if d.Drain? { ReceivedIsGiven(c, s); }
  }

  lemma {:induction false} PersistAppears(c: Config, s: State, p: PersistStep)
    requires c.window > 0 && PersistEnabled(c, s, p) && s.firstErr.None?
    ensures DoPersist(c, s, p).firstErr.Some? ==> Raises(s, Persist(p), DoPersist(c, s, p).firstErr.value)
  {
  }

  lemma {:induction false} ErrorAppearsIn(c: Config, s: State, step: Step)
    requires c.window > 0 && OutcomesOk(s) && Enabled(c, s, step) && s.firstErr.None?
    requires step == Select(Receive) ==> !GuardFires(c, s, s.outcomes[0].index)
    ensures Do(c, s, step).firstErr.Some? ==> var e := Do(c, s, step).firstErr.value; Raises(s, step, e) || Given(s, e)
  {
    match step
    case Fill(_) =>
    case Select(x) => if x.Receive? { ReceiveAppears(c, s); }
    case Persist(p) => PersistAppears(c, s, p);
    case Shut(d) => ShutAppears(c, s, d);
    case Work(_) =>
    case Context(_) =>
  }

  lemma {:induction false} ErrorAppears(c: Config, s: State, step: Step)
    requires Inv(c, s) && Enabled(c, s, step) && s.firstErr.None? && Do(c, s, step).firstErr.Some?
    ensures var e := Do(c, s, step).firstErr.value; Raises(s, step, e) || Given(s, e)
  {
    if step == Select(Receive) { GuardNeverFires(c, s); }
    ErrorAppearsIn(c, s, step);
  }

  lemma {:induction false} GivenStays(c: Config, s: State, steps: seq<Step>, t: State, e: Error)
    requires Inv(c, s) && Run(c, s, steps, t) && Given(s, e)
    ensures Given(t, e)
  {
    var i :| i in s.produced && s.produced[i] == Hard(e);
    RunKeepsProduced(c, s, steps, t, i);
  }

  lemma {:induction false} RaisedLater(c: Config, s: State, steps: seq<Step>, k: nat, mid: State, e: Error)
    requires c.window > 0 && steps != [] && Enabled(c, s, steps[0]) && RaisedAt(c, Do(c, s, steps[0]), steps[1..], k, mid, e)
    ensures RaisedAt(c, s, steps, k + 1, mid, e)
  {
    assert steps[..k + 1][1..] == steps[1..][..k];
  }

  lemma {:induction false} ErrorRaised(c: Config, s: State, steps: seq<Step>, t: State)
    requires Inv(c, s) && Run(c, s, steps, t) && s.firstErr.None? && t.firstErr.Some?
    ensures Given(t, t.firstErr.value) || exists k, mid :: RaisedAt(c, s, steps, k, mid, t.firstErr.value)
    decreases |steps|
  {
    var next := Do(c, s, steps[0]);
    StepKeepsInv(c, s, steps[0]);
    if next.firstErr.None? {
      ErrorRaised(c, next, steps[1..], t);
      if k, mid :| RaisedAt(c, next, steps[1..], k, mid, t.firstErr.value) {
        RaisedLater(c, s, steps, k, mid, t.firstErr.value);
      }
    } else {
      ErrorStays(c, next, steps[1..], t);
      ErrorAppears(c, s, steps[0]);
      if Given(s, t.firstErr.value) {
        GivenStays(c, s, steps, t, t.firstErr.value);
      } else {
        assert RaisedAt(c, s, steps, 0, s, t.firstErr.value);
      }
    }
  }

  /** The error of a call is the one a worker sent, or that of a failing `next` or `record` step of the run,
      with the index it failed on and its text. */
  lemma {:induction false} ErrorIsReported(c: Config, ctxErr: bool, cancelled: bool, steps: seq<Step>, t: State)
    requires ValidConfig(c) && (cancelled ==> ctxErr) && Run(c, Init(ctxErr, cancelled), steps, t) && t.firstErr.Some?
    ensures (exists i :: Work(Finish(i, Hard(t.firstErr.value))) in steps)
            || exists k, mid :: RaisedAt(c, Init(ctxErr, cancelled), steps, k, mid, t.firstErr.value)
  {
    InitInv(c, ctxErr, cancelled);
    ErrorRaised(c, Init(ctxErr, cancelled), steps, t);
    if Given(t, t.firstErr.value) {
      var i :| i in t.produced && t.produced[i] == Hard(t.firstErr.value);
      ProducedBySomeone(c, Init(ctxErr, cancelled), steps, t, i);
    }
  }

  lemma {:induction false} RunFrom(c: Config, s: State, step: Step, rest: seq<Step>, t: State)
    requires c.window > 0 && Enabled(c, s, step) && Run(c, Do(c, s, step), rest, t)
    ensures Run(c, s, [step] + rest, t)
  {
    assert ([step] + rest)[1..] == rest;
  }

  lemma {:induction false} RunConcat(c: Config, s: State, steps: seq<Step>, mid: State, more: seq<Step>, t: State)
    requires c.window > 0 && Run(c, s, steps, mid) && Run(c, mid, more, t)
    ensures Run(c, s, steps + more, t)
    decreases |steps|
  {
    if steps == [] {
      assert steps + more == more;
    } else {
      RunConcat(c, Do(c, s, steps[0]), steps[1..], mid, more, t);
      RunFrom(c, s, steps[0], steps[1..] + more, t);
      assert [steps[0]] + (steps[1..] + more) == steps + more;
    }
  }

  /** What the call returns: an error iff something failed, and otherwise a complete, ordered log
      unless the caller's own context was cancelled. */
  lemma ReturnedResult(c: Config, s: State)
    requires Inv(c, s) && s.pc == Returned
    ensures HardProduced(s) || s.refused != multiset{} ==> s.firstErr.Some?
    ensures ErrorJustified(s)
    ensures s.complete <==> s.firstErr.None? && !s.ctxErr
    ensures s.complete ==> |s.recorded| == c.count
                           && forall i :: 0 <= i < c.count ==> i in s.produced && s.produced[i] == Ok(s.recorded[i])
  {
  }

  /** The steps of a run in which nothing fails and nobody cancels; run gives f(i) for index i. */
  ghost predicate Smooth(steps: seq<Step>, f: nat -> Report) {
    forall k :: 0 <= k < |steps| ==> SmoothStep(steps[k], f)
  }

  ghost predicate SmoothStep(step: Step, f: nat -> Report) {
    match step
    case Fill(NextFails(_)) => false
    case Persist(RecordFails(_)) => false
    case Context(_) => false
    case Work(Finish(i, ran)) => ran == Ok(f(i))
    case _ => true
  }

  ghost predicate SmoothState(s: State, f: nat -> Report) {
    !s.ctxErr && s.firstErr.None? && forall i :: i in s.produced ==> s.produced[i] == Ok(f(i))
  }

  lemma SmoothReceive(c: Config, s: State, f: nat -> Report)
    requires c.window > 0 && OutcomesOk(s) && SmoothState(s, f) && s.outcomes != []
    requires !GuardFires(c, s, s.outcomes[0].index)
    ensures SmoothState(DoReceive(c, s), f)
  {
  }

  lemma SmoothShut(c: Config, s: State, d: ShutStep, f: nat -> Report)
    requires OutcomesOk(s) && SmoothState(s, f) && ShutEnabled(s, d)
    ensures SmoothState(DoShut(c, s, d), f)
  {
  }

  lemma SmoothWork(c: Config, s: State, w: WorkStep, f: nat -> Report)
    requires SmoothState(s, f) && WorkEnabled(c, s, w) && SmoothStep(Work(w), f)
    ensures SmoothState(DoWork(c, s, w), f)
  {
  }

  lemma SmoothKept(c: Config, s: State, step: Step, f: nat -> Report)
    requires c.window > 0 && OutcomesOk(s) && SmoothState(s, f) && Enabled(c, s, step) && SmoothStep(step, f)
    requires step == Select(Receive) ==> !GuardFires(c, s, s.outcomes[0].index)
    ensures SmoothState(Do(c, s, step), f)
  {
    match step
    case Select(x) => if x.Receive? { SmoothReceive(c, s, f); }
    case Fill(_) =>
    case Persist(_) =>
    case Shut(d) => SmoothShut(c, s, d, f);
    case Work(w) => SmoothWork(c, s, w, f);
    case Context(_) =>
  }

  lemma {:induction false} SmoothOne(c: Config, s: State, step: Step, f: nat -> Report)
    requires Inv(c, s) && SmoothState(s, f) && Enabled(c, s, step) && SmoothStep(step, f)
    ensures SmoothState(Do(c, s, step), f)
  {
    if step == Select(Receive) { GuardNeverFires(c, s); }
    SmoothKept(c, s, step, f);
  }

  lemma {:induction false} SmoothRun(c: Config, s: State, steps: seq<Step>, t: State, f: nat -> Report)
    requires Inv(c, s) && SmoothState(s, f) && Run(c, s, steps, t) && Smooth(steps, f)
    ensures Inv(c, t) && SmoothState(t, f)
    decreases |steps|
  {
    if steps != [] {
      assert SmoothStep(steps[0], f);
      StepKeepsInv(c, s, steps[0]);
      SmoothOne(c, s, steps[0], f);
      SmoothRun(c, Do(c, s, steps[0]), steps[1..], t, f);
    }
  }

  function Reports(n: nat, f: nat -> Report): (r: seq<Report>)
    ensures |r| == n
  {
    seq(n, i requires 0 <= i < n => f(i))
  }

  /** Whatever the interleaving, an undisturbed run records f(0), ..., f(count-1) and is complete. */
  lemma UndisturbedRun(c: Config, steps: seq<Step>, t: State, f: nat -> Report)
    requires ValidConfig(c) && Run(c, Init(false, false), steps, t) && Smooth(steps, f) && t.pc == Returned
    ensures t.complete && t.firstErr.None? && t.recorded == Reports(c.count, f)
  {
    InitInv(c, false, false);
    SmoothRun(c, Init(false, false), steps, t, f);
    ReturnedResult(c, t);
    forall i | 0 <= i < c.count ensures t.recorded[i] == f(i) {
      assert t.produced[i] == Ok(t.recorded[i]);
    }
  }

  // ---------- A context that is done beforehand ----------

  /** Nothing was queued, so nothing can go wrong either. */
  ghost predicate Untouched(s: State) {
    && s.ctxErr && s.cancelled && s.queued == s.committed == 0 && s.jobs == [] && s.outcomes == [] && s.pending == map[]
    && Busy(s) == 0 && s.firstErr.None? && s.recorded == [] && s.pc != Selecting && s.pc != Committing && !s.complete
  }

  lemma {:induction false} NothingQueued(c: Config, s: State, steps: seq<Step>, t: State)
    requires ValidConfig(c) && Untouched(s) && Run(c, s, steps, t)
    ensures Untouched(t)
    decreases |steps|
  {
    if steps != [] { NothingQueued(c, Do(c, s, steps[0]), steps[1..], t); }
  }
}
