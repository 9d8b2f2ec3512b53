/** The parallel executor that stores results by index: a dispatcher, bounded workers, one mutex.
    Every atomic action is a step, and a run is any interleaving of enabled steps. */
module ParallelExecutor {
  import opened Base
  import opened OrderedWindow

  /** Where one mutant is. */
  datatype Status = Unsent | Taken | Started | Stored(report: Report) | Skipped | Failed(error: Error)

  datatype Pool = Pool(status: seq<Status>, sent: nat, hardErr: Option<Error>, owing: nat, ctxErr: bool, innerDone: bool,
                       closed: bool, executed: nat, writeFailures: nat, returned: bool)

  datatype Action =
    | Send | CloseWork
    | Skip(i: nat) | Begin(i: nat) | Store(i: nat, report: Report) | Fail(i: nat, error: Error) | CancelInner
    | External | Propagates
    | JoinAll

  function Fresh(n: nat, ctxErr: bool): Pool {
    Pool(seq(n, i => Unsent), 0, None, 0, ctxErr, ctxErr, false, 0, 0, false)
  }

  // ---------- Sums over the mutants ----------

  function Sum(w: Status -> nat, st: seq<Status>): nat {
    if st == [] then 0 else Sum(w, st[..|st| - 1]) + w(st[|st| - 1])
  }

  lemma {:induction false} SumUpdate(w: Status -> nat, st: seq<Status>, i: nat, x: Status)
    requires i < |st|
    ensures Sum(w, st[i := x]) + w(st[i]) == Sum(w, st) + w(x)
    decreases |st|
  {
    var n := |st| - 1;
    if i < n {
      assert st[i := x][..n] == st[..n][i := x];
      SumUpdate(w, st[..n], i, x);
    } else {
      assert st[i := x][..n] == st[..n];
    }
  }

  lemma {:induction false} SumZero(w: Status -> nat, st: seq<Status>)
    requires forall i :: 0 <= i < |st| ==> w(st[i]) == 0
    ensures Sum(w, st) == 0
    decreases |st|
  {
    if st != [] { SumZero(w, st[..|st| - 1]); }
  }

  function Working(x: Status): nat { One(x.Taken? || x.Started?) }
  function Executed(x: Status): nat { One(x.Stored? && x.report.executed) }
  function Unwritten(x: Status): nat { One(x.Stored? && x.report.executed && x.report.cacheError.Some?) }

  function Weight(x: Status): nat {
    match x case Unsent => 5 case Taken => 4 case Started => 2 case _ => 0
  }

  // ---------- The steps ----------

  function Busy(s: Pool): nat { Sum(Working, s.status) + s.owing }

  predicate Is(s: Pool, i: nat, x: Status) { i < |s.status| && s.status[i] == x }

  predicate Enabled(workers: nat, s: Pool, a: Action) {
    match a
    case Send => !s.closed && s.sent < |s.status| && Busy(s) < workers
    case CloseWork => !s.closed && (s.sent == |s.status| || s.innerDone)
    case Skip(i) => Is(s, i, Taken) && s.innerDone
    case Begin(i) => Is(s, i, Taken) && !s.innerDone
    case Store(i, _) => Is(s, i, Started)
    case Fail(i, _) => Is(s, i, Started)
    case CancelInner => s.owing > 0
    case External => !s.ctxErr && !s.returned
    case Propagates => s.ctxErr && !s.innerDone
    case JoinAll => s.closed && Busy(s) == 0 && !s.returned
  }

  function Put(s: Pool, i: nat, x: Status): Pool
    requires i < |s.status|
  {
    s.(status := s.status[i := x])
  }

  function Do(workers: nat, s: Pool, a: Action): Pool
    requires Enabled(workers, s, a)
  {
    match a
    case Send => Put(s, s.sent, Taken).(sent := s.sent + 1)
    case CloseWork => s.(closed := true)
    case Skip(i) => Put(s, i, Skipped)
    case Begin(i) => Put(s, i, Started)
    case Store(i, r) =>
      Put(s, i, Stored(r)).(executed := s.executed + One(r.executed),
                            writeFailures := s.writeFailures + One(r.executed && r.cacheError.Some?))
    case Fail(i, e) => Put(s, i, Failed(e)).(hardErr := if s.hardErr.None? then Some(e) else s.hardErr, owing := s.owing + 1)
    case CancelInner => s.(owing := s.owing - 1, innerDone := true)
    case External => s.(ctxErr := true)
    case Propagates => s.(innerDone := true)
    case JoinAll => s.(returned := true)
  }

  // ---------- The invariant ----------

  /** The error that is kept is that of a mutant. */
  ghost predicate ErrorFrom(s: Pool) {
    s.hardErr.Some? ==> exists i :: 0 <= i < |s.status| && s.status[i] == Failed(s.hardErr.value)
  }

  ghost predicate StatusOk(s: Pool) {
    && s.sent <= |s.status|
    && (forall i :: 0 <= i < |s.status| ==> (s.status[i].Unsent? <==> i >= s.sent))
    && (forall i :: 0 <= i < |s.status| && s.status[i].Failed? ==> s.hardErr.Some?)
    && ErrorFrom(s)
    && (forall i :: 0 <= i < |s.status| && s.status[i].Skipped? ==> s.innerDone)
  }

  predicate FlagsOk(s: Pool) {
    && (s.innerDone ==> s.ctxErr || s.hardErr.Some?) && (s.owing > 0 ==> s.hardErr.Some?)
    && (s.hardErr.Some? ==> s.owing > 0 || s.innerDone)
    && (s.closed && s.sent < |s.status| ==> s.innerDone) && (s.returned ==> s.closed && Busy(s) == 0)
  }

  predicate CountsOk(s: Pool) {
    s.executed == Sum(Executed, s.status) && s.writeFailures == Sum(Unwritten, s.status)
  }

  ghost predicate Inv(s: Pool) { StatusOk(s) && FlagsOk(s) && CountsOk(s) }

  function Rank(s: Pool): nat {
    Sum(Weight, s.status) + s.owing + One(!s.closed) + One(!s.innerDone) + One(!s.ctxErr) + One(!s.returned)
  }

  lemma {:induction false} AllUnsent(n: nat)
    ensures Sum(Executed, seq(n, i => Unsent)) == 0 && Sum(Unwritten, seq(n, i => Unsent)) == 0
  {
    SumZero(Executed, seq(n, i => Unsent));
    SumZero(Unwritten, seq(n, i => Unsent));
  }

  /** A mutant someone is working on shows in the sum. */
  lemma {:induction false} Counted(st: seq<Status>, i: nat)
    requires i < |st| && (st[i].Taken? || st[i].Started?)
    ensures Sum(Working, st) > 0
    decreases |st|
  {
    if i < |st| - 1 { Counted(st[..|st| - 1], i); }
  }

  /** What a step does to the sums. */
  lemma StepSums(s: Pool, i: nat, x: Status)
    requires i < |s.status|
    ensures Sum(Executed, Put(s, i, x).status) + Executed(s.status[i]) == Sum(Executed, s.status) + Executed(x)
    ensures Sum(Unwritten, Put(s, i, x).status) + Unwritten(s.status[i]) == Sum(Unwritten, s.status) + Unwritten(x)
    ensures Sum(Working, Put(s, i, x).status) + Working(s.status[i]) == Sum(Working, s.status) + Working(x)
    ensures Sum(Weight, Put(s, i, x).status) + Weight(s.status[i]) == Sum(Weight, s.status) + Weight(x)
  {
    SumUpdate(Executed, s.status, i, x);
    SumUpdate(Unwritten, s.status, i, x);
    SumUpdate(Working, s.status, i, x);
    SumUpdate(Weight, s.status, i, x);
  }

  /** The mutant a step is about, and where it puts it. */
  function Moves(s: Pool, a: Action): Option<(nat, Status)> {
    match a
    case Send => Some((s.sent, Taken))
    case Skip(i) => Some((i, Skipped))
    case Begin(i) => Some((i, Started))
    case Store(i, r) => Some((i, Stored(r)))
    case Fail(i, e) => Some((i, Failed(e)))
    case _ => None
  }

  lemma NobodyReturned(s: Pool, i: nat)
    requires FlagsOk(s) && i < |s.status| && (s.status[i].Taken? || s.status[i].Started?)
    ensures !s.returned
  {
    Counted(s.status, i);
  }

  lemma {:induction false} KeepsError(workers: nat, s: Pool, a: Action)
    requires StatusOk(s) && Enabled(workers, s, a)
    ensures ErrorFrom(Do(workers, s, a))
  {
    var t := Do(workers, s, a);
    if s.hardErr.Some? {
      var k :| 0 <= k < |s.status| && s.status[k] == Failed(s.hardErr.value);
      assert t.status[k] == Failed(s.hardErr.value);
    } else if a.Fail? {
      assert t.status[a.i] == Failed(a.error);
    }
  }

  lemma {:induction false} MoveKeepsStatus(workers: nat, s: Pool, a: Action)
    requires StatusOk(s) && Enabled(workers, s, a) && Moves(s, a).Some?
    ensures StatusOk(Do(workers, s, a))
  {
    KeepsError(workers, s, a);
    var t, m := Do(workers, s, a), Moves(s, a).value;
    assert t.status == s.status[m.0 := m.1];
  }

  lemma {:induction false} KeepsStatus(workers: nat, s: Pool, a: Action)
    requires Inv(s) && Enabled(workers, s, a)
    ensures StatusOk(Do(workers, s, a))
  {
    if Moves(s, a).Some? { MoveKeepsStatus(workers, s, a); }
  }

  lemma {:induction false} KeepsFlags(workers: nat, s: Pool, a: Action)
    requires Inv(s) && Enabled(workers, s, a)
    ensures FlagsOk(Do(workers, s, a))
  {
    if Moves(s, a).Some? {
      var m := Moves(s, a).value;
      StepSums(s, m.0, m.1);
      if !a.Send? { NobodyReturned(s, m.0); }
    }
  }

  lemma KeepsCounts(workers: nat, s: Pool, a: Action)
    requires Inv(s) && Enabled(workers, s, a)
    ensures CountsOk(Do(workers, s, a))
  {
    if Moves(s, a).Some? { StepSums(s, Moves(s, a).value.0, Moves(s, a).value.1); }
  }

  lemma RankFalls(workers: nat, s: Pool, a: Action)
    requires Inv(s) && Enabled(workers, s, a)
    ensures Rank(Do(workers, s, a)) < Rank(s)
  {
    if Moves(s, a).Some? { StepSums(s, Moves(s, a).value.0, Moves(s, a).value.1); }
  }

  /** Until it has returned, something other than the caller's context can move it. */
  lemma Progress(workers: nat, s: Pool) returns (a: Action)
    requires Inv(s) && !s.returned && workers > 0
    ensures Enabled(workers, s, a) && !a.External? && !a.Propagates?
  {
    if i :| 0 <= i < |s.status| && s.status[i].Taken? {
      a := if s.innerDone then Skip(i) else Begin(i);
    } else if i :| 0 <= i < |s.status| && s.status[i].Started? {
      a := Store(i, Report("", Unknown, false, None));
    } else if s.owing > 0 {
      a := CancelInner;
    } else {
      SumZero(Working, s.status);
      a := if s.closed then JoinAll else if s.sent == |s.status| || s.innerDone then CloseWork else Send;
    }
  }

  // ---------- Runs ----------

  ghost predicate Run(workers: nat, s: Pool, acts: seq<Action>, t: Pool)
    decreases |acts|
  {
    if acts == [] then s == t else Enabled(workers, s, acts[0]) && Run(workers, Do(workers, s, acts[0]), acts[1..], t)
  }

  lemma {:induction false} RunKeeps(workers: nat, s: Pool, acts: seq<Action>, t: Pool)
    requires Inv(s) && Run(workers, s, acts, t)
    ensures Inv(t) && |acts| + Rank(t) <= Rank(s) && |t.status| == |s.status|
    decreases |acts|
  {
    if acts != [] {
      var mid := Do(workers, s, acts[0]);
      KeepsStatus(workers, s, acts[0]);
      KeepsFlags(workers, s, acts[0]);
      KeepsCounts(workers, s, acts[0]);
      RankFalls(workers, s, acts[0]);
      RunKeeps(workers, mid, acts[1..], t);
    }
  }

  lemma FreshInv(n: nat, ctxErr: bool)
    ensures Inv(Fresh(n, ctxErr))
  {
    AllUnsent(n);
  }

  // ---------- The answer ----------

  /** The stored results in index order. */
  function Collect(st: seq<Status>): seq<Report> {
    if st == [] then []
    else
      var front := Collect(st[..|st| - 1]);
      if st[|st| - 1].Stored? then front + [st[|st| - 1].report] else front
  }

  ghost predicate AllStored(st: seq<Status>) { forall i :: 0 <= i < |st| ==> st[i].Stored? }

  /** What the call returns when there is no hard error. */
  ghost predicate Complete(s: Pool) { !s.ctxErr && AllStored(s.status) }

  lemma {:induction false} CollectSize(st: seq<Status>)
    ensures |Collect(st)| <= |st| && (|Collect(st)| == |st| <==> AllStored(st))
    decreases |st|
  {
    if st != [] {
      var n := |st| - 1;
      CollectSize(st[..n]);
      if AllStored(st) { assert AllStored(st[..n]); }
      if AllStored(st[..n]) && st[n].Stored? { assert AllStored(st); }
    }
  }

  lemma {:induction false} CollectAll(st: seq<Status>, f: nat -> Report)
    requires forall i :: 0 <= i < |st| ==> st[i] == Stored(f(i))
    ensures Collect(st) == Reports(|st|, f)
    decreases |st|
  {
    if st != [] { CollectAll(st[..|st| - 1], f); }
  }

  /** The mutants below k whose result is stored. */
  function StoredBelow(st: seq<Status>, k: nat): set<nat>
    requires k <= |st|
  {
    set i: nat | i < k && st[i].Stored?
  }

  lemma {:induction false} StoredBelowFront(st: seq<Status>, k: nat)
    requires st != [] && k < |st|
    ensures StoredBelow(st[..|st| - 1], k) == StoredBelow(st, k)
    ensures StoredBelow(st, k + 1) == StoredBelow(st, k) + (if st[k].Stored? then {k} else {})
  {
    assert forall i: nat :: i < k ==> st[..|st| - 1][i] == st[i];
  }

  lemma {:induction false} CollectSizeExactly(st: seq<Status>)
    ensures |Collect(st)| == |StoredBelow(st, |st|)|
    decreases |st|
  {
    if st != [] {
      var n := |st| - 1;
      CollectSizeExactly(st[..n]);
      StoredBelowFront(st, n);
    }
  }

  /** The result of mutant i stands behind those of the stored mutants below i. */
  lemma {:induction false} CollectPlace(st: seq<Status>, i: nat)
    requires i < |st| && st[i].Stored?
    ensures |StoredBelow(st, i)| < |Collect(st)| && Collect(st)[|StoredBelow(st, i)|] == st[i].report
    decreases |st|
  {
    var n := |st| - 1;
    StoredBelowFront(st, i);
    if i < n {
      CollectPlace(st[..n], i);
    } else {
      CollectSizeExactly(st[..n]);
    }
  }

  /** One result for each stored mutant, in index order. */
  lemma {:induction false} CollectExactly(st: seq<Status>)
    ensures |Collect(st)| == |set i: nat | i < |st| && st[i].Stored?|
    ensures forall i: nat :: i < |st| && st[i].Stored? ==>
      |StoredBelow(st, i)| < |Collect(st)| && Collect(st)[|StoredBelow(st, i)|] == st[i].report
  {
    CollectSizeExactly(st);
    assert StoredBelow(st, |st|) == set i: nat | i < |st| && st[i].Stored?;
    forall i: nat | i < |st| && st[i].Stored?
      ensures |StoredBelow(st, i)| < |Collect(st)| && Collect(st)[|StoredBelow(st, i)|] == st[i].report
    {
      CollectPlace(st, i);
    }
  }

  /** The places of a list that hold a result with the property. */
  function Places(p: Report -> bool, rs: seq<Report>): set<nat> { set k: nat | k < |rs| && p(rs[k]) }

  lemma PlacesPush(p: Report -> bool, rs: seq<Report>, r: Report)
    ensures |Places(p, rs + [r])| == |Places(p, rs)| + One(p(r))
  {
    assert Places(p, rs + [r]) == Places(p, rs) + (if p(r) then {|rs|} else {});
  }

  predicate WasExecuted(r: Report) { r.executed }
  predicate NotWritten(r: Report) { r.executed && r.cacheError.Some? }

  lemma {:induction false} CountedOnce(st: seq<Status>)
    ensures Sum(Executed, st) == |Places(WasExecuted, Collect(st))|
    ensures Sum(Unwritten, st) == |Places(NotWritten, Collect(st))|
    decreases |st|
  {
    if st != [] {
      var n := |st| - 1;
      CountedOnce(st[..n]);
      if st[n].Stored? {
        PlacesPush(WasExecuted, Collect(st[..n]), st[n].report);
        PlacesPush(NotWritten, Collect(st[..n]), st[n].report);
      }
    }
  }

  /** Whatever the interleaving: a hard error of any worker surfaces; without one the call is complete
      unless the caller cancelled; it returns one result for each stored mutant, in index order, also
      when it was interrupted; and the counters count what it returns. */
  lemma Answer(workers: nat, n: nat, ctxErr: bool, acts: seq<Action>, t: Pool)
    requires Run(workers, Fresh(n, ctxErr), acts, t) && t.returned
    ensures t.hardErr.Some? <==> exists i :: 0 <= i < |t.status| && t.status[i].Failed?
    ensures t.hardErr.None? ==> (Complete(t) <==> !t.ctxErr)
    ensures |t.status| == n && |Collect(t.status)| == |set i: nat | i < n && t.status[i].Stored?|
    ensures Complete(t) ==> |Collect(t.status)| == n
    ensures forall i: nat :: i < n && t.status[i].Stored? ==>
      |StoredBelow(t.status, i)| < |Collect(t.status)| && Collect(t.status)[|StoredBelow(t.status, i)|] == t.status[i].report
    ensures var rs := Collect(t.status);
      && t.executed == |set k: nat | k < |rs| && rs[k].executed|
      && t.writeFailures == |set k: nat | k < |rs| && rs[k].executed && rs[k].cacheError.Some?|
  {
    FreshInv(n, ctxErr);
    RunKeeps(workers, Fresh(n, ctxErr), acts, t);
    CollectSize(t.status);
    CollectExactly(t.status);
    CountedOnce(t.status);
    var rs := Collect(t.status);
    assert Places(WasExecuted, rs) == set k: nat | k < |rs| && rs[k].executed;
    assert Places(NotWritten, rs) == set k: nat | k < |rs| && rs[k].executed && rs[k].cacheError.Some?;
    if t.hardErr.None? && !t.ctxErr { AllAreStored(t); }
  }

  lemma AllAreStored(t: Pool)
    requires Inv(t) && t.returned && t.hardErr.None? && !t.ctxErr
    ensures AllStored(t.status)
  {
    forall i | 0 <= i < |t.status| ensures t.status[i].Stored? {
      if t.status[i].Taken? || t.status[i].Started? { NobodyReturned(t, i); }
    }
  }

  /** The error that is kept is the one that came first. */
  lemma {:induction false} FirstErrorKept(workers: nat, s: Pool, acts: seq<Action>, t: Pool)
    requires Run(workers, s, acts, t)
    ensures s.hardErr.Some? ==> t.hardErr == s.hardErr
    ensures s.hardErr.None? && t.hardErr.Some? ==>
      exists k :: 0 <= k < |acts| && acts[k].Fail? && acts[k].error == t.hardErr.value && forall j :: 0 <= j < k ==> !acts[j].Fail?
    decreases |acts|
  {
    if acts != [] {
      var mid := Do(workers, s, acts[0]);
      FirstErrorKept(workers, mid, acts[1..], t);
      if mid.hardErr.None? && t.hardErr.Some? {
        var k :| 0 <= k < |acts[1..]| && acts[1..][k].Fail? && acts[1..][k].error == t.hardErr.value
          && forall j :: 0 <= j < k ==> !acts[1..][j].Fail?;
        assert acts[k + 1] == acts[1..][k];
        assert forall j :: 1 <= j < k + 1 ==> acts[j] == acts[1..][j - 1];
      }
    }
  }

  // ---------- Who works, and until when ----------

  /** The mutants that some worker holds. */
  function Held(st: seq<Status>): set<nat> { set i: nat | i < |st| && (st[i].Taken? || st[i].Started?) }

  lemma {:induction false} HeldCount(st: seq<Status>)
    ensures |Held(st)| == Sum(Working, st)
    decreases |st|
  {
    if st != [] {
      var n := |st| - 1;
      HeldCount(st[..n]);
      assert Held(st) == Held(st[..n]) + (if st[n].Taken? || st[n].Started? then {n} else {});
    }
  }

  lemma BusyStep(workers: nat, s: Pool, a: Action)
    requires Enabled(workers, s, a) && Busy(s) <= workers
    ensures Busy(Do(workers, s, a)) <= workers
  {
    if Moves(s, a).Some? { StepSums(s, Moves(s, a).value.0, Moves(s, a).value.1); }
  }

  lemma {:induction false} BusyStays(workers: nat, s: Pool, acts: seq<Action>, t: Pool)
    requires Run(workers, s, acts, t) && Busy(s) <= workers
    ensures Busy(t) <= workers
    decreases |acts|
  {
    if acts != [] {
      BusyStep(workers, s, acts[0]);
      BusyStays(workers, Do(workers, s, acts[0]), acts[1..], t);
    }
  }

  /** Never are more mutants in work than there are workers; a hard error makes the inner context done; and
      what was started before it is done is all that is ever started. */
  lemma {:induction false} Discipline(workers: nat, n: nat, ctxErr: bool, acts: seq<Action>, s: Pool, more: seq<Action>, t: Pool)
    requires Run(workers, Fresh(n, ctxErr), acts, s) && Run(workers, s, more, t)
    ensures |set i: nat | i < |s.status| && (s.status[i].Taken? || s.status[i].Started?)| <= workers
    ensures s.hardErr.Some? ==> s.owing > 0 || s.innerDone
    ensures s.innerDone ==> |t.status| == |s.status| && forall i :: 0 <= i < |s.status| && t.status[i].Started? ==> s.status[i].Started?
    ensures s.innerDone ==> forall i :: 0 <= i < |s.status| && t.status[i].Stored? ==> s.status[i].Stored? || s.status[i].Started?
  {
    FreshInv(n, ctxErr);
    RunKeeps(workers, Fresh(n, ctxErr), acts, s);
    AllIdle(n);
    BusyStays(workers, Fresh(n, ctxErr), acts, s);
    HeldCount(s.status);
    assert Held(s.status) == set i: nat | i < |s.status| && (s.status[i].Taken? || s.status[i].Started?);
    if s.innerDone { NoNewStart(workers, s, more, t); }
  }

  lemma {:induction false} AllIdle(n: nat)
    ensures Sum(Working, seq(n, i => Unsent)) == 0
  {
    SumZero(Working, seq(n, i => Unsent));
  }

  lemma {:induction false} NoNewStart(workers: nat, s: Pool, acts: seq<Action>, t: Pool)
    requires s.innerDone && Run(workers, s, acts, t)
    ensures |t.status| == |s.status| && forall i :: 0 <= i < |s.status| && t.status[i].Started? ==> s.status[i].Started?
    ensures forall i :: 0 <= i < |s.status| && t.status[i].Stored? ==> s.status[i].Stored? || s.status[i].Started?
    decreases |acts|
  {
    if acts != [] {
      var mid := Do(workers, s, acts[0]);
      NoNewStart(workers, mid, acts[1..], t);
    }
  }

  /** Every run ends: it is no longer than five steps a mutant and four more, and one that only the
      caller's context can continue has returned. */
  lemma EveryRunEnds(workers: nat, n: nat, ctxErr: bool, acts: seq<Action>, t: Pool)
    requires workers > 0 && Run(workers, Fresh(n, ctxErr), acts, t)
    ensures |acts| <= 5 * n + 4
    ensures !t.returned ==> exists a :: Enabled(workers, t, a) && !a.External? && !a.Propagates?
  {
    FreshInv(n, ctxErr);
    FullWeight(n);
    RunKeeps(workers, Fresh(n, ctxErr), acts, t);
    if !t.returned {
      var a := Progress(workers, t);
    }
  }

  lemma {:induction false} FullWeight(n: nat)
    ensures Sum(Weight, seq(n, i => Unsent)) == 5 * n
    decreases n
  {
    if n > 0 {
      FullWeight(n - 1);
      assert seq(n, i => Unsent)[..n - 1] == seq(n - 1, i => Unsent);
    }
  }

  // ---------- A context that is done beforehand ----------

  /** Nothing was run: whatever a worker received it skipped. */
  ghost predicate Untouched(s: Pool) {
    && s.ctxErr && s.innerDone && s.hardErr.None? && s.executed == 0 && s.writeFailures == 0
    && forall i :: 0 <= i < |s.status| ==> s.status[i].Unsent? || s.status[i].Taken? || s.status[i].Skipped?
  }

  lemma {:induction false} NothingStarted(workers: nat, s: Pool, acts: seq<Action>, t: Pool)
    requires Untouched(s) && Run(workers, s, acts, t)
    ensures Untouched(t)
    decreases |acts|
  {
    if acts != [] { NothingStarted(workers, Do(workers, s, acts[0]), acts[1..], t); }
  }

  lemma {:induction false} NoneCollected(st: seq<Status>)
    requires forall i :: 0 <= i < |st| ==> !st[i].Stored?
    ensures Collect(st) == []
    decreases |st|
  {
    if st != [] { NoneCollected(st[..|st| - 1]); }
  }

  // ---------- Undisturbed runs ----------

  predicate Quiet(a: Action, f: nat -> Report) {
    !a.External? && !a.Fail? && (a.Store? ==> a.report == f(a.i))
  }

  ghost predicate QuietRun(acts: seq<Action>, f: nat -> Report) { forall k :: 0 <= k < |acts| ==> Quiet(acts[k], f) }

  predicate QuietPool(s: Pool, f: nat -> Report) {
    !s.ctxErr && s.hardErr.None? && forall i :: 0 <= i < |s.status| && s.status[i].Stored? ==> s.status[i] == Stored(f(i))
  }

  lemma {:induction false} StaysQuiet(workers: nat, s: Pool, acts: seq<Action>, t: Pool, f: nat -> Report)
    requires QuietPool(s, f) && Run(workers, s, acts, t) && QuietRun(acts, f)
    ensures QuietPool(t, f)
    decreases |acts|
  {
    if acts != [] {
      assert Quiet(acts[0], f);
      QuietStep(workers, s, acts[0], f);
      StaysQuiet(workers, Do(workers, s, acts[0]), acts[1..], t, f);
    }
  }

  lemma QuietStep(workers: nat, s: Pool, a: Action, f: nat -> Report)
    requires QuietPool(s, f) && Enabled(workers, s, a) && Quiet(a, f)
    ensures QuietPool(Do(workers, s, a), f)
  {
  }

  /** Whatever the interleaving, an undisturbed run returns f(0), ..., f(n-1) and is complete. */
  lemma UndisturbedPool(workers: nat, n: nat, acts: seq<Action>, t: Pool, f: nat -> Report)
    requires Run(workers, Fresh(n, false), acts, t) && QuietRun(acts, f) && t.returned
    ensures t.hardErr.None? && Complete(t) && Collect(t.status) == Reports(n, f)
  {
    StaysQuiet(workers, Fresh(n, false), acts, t, f);
    Answer(workers, n, false, acts, t);
    CollectAll(t.status, f);
  }
}
