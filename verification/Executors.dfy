/** The sequential executor, the agreement of the three executors, the score, and the checks that a
    report has to pass. */
module Executors {
  import opened Base
  import OrderedWindow
  import opened ParallelExecutor
  import Sorting

  type Report = OrderedWindow.Report
  type Ran = OrderedWindow.Ran

  // ---------- The sequential executor ----------

  /** What an executor returns. */
  datatype Answered =
    | Broke(error: OrderedWindow.Error)
    | Results(reports: seq<Report>, complete: bool, executed: nat, writeFailures: nat)

  /** The results so far and their counters. */
  ghost predicate SoFar(run: nat -> Ran, rs: seq<Report>, executed: nat, writeFailures: nat) {
    && (forall k :: 0 <= k < |rs| ==> run(k) == OrderedWindow.Ok(rs[k]))
    && executed == |set k: nat | k < |rs| && rs[k].executed|
    && writeFailures == |set k: nat | k < |rs| && rs[k].executed && rs[k].cacheError.Some?|
  }

  lemma CountsArePlaces(rs: seq<Report>)
    ensures Places(WasExecuted, rs) == set k: nat | k < |rs| && rs[k].executed
    ensures Places(NotWritten, rs) == set k: nat | k < |rs| && rs[k].executed && rs[k].cacheError.Some?
  {
  }

  lemma NoneSoFar(run: nat -> Ran)
    ensures SoFar(run, [], 0, 0)
  {
    CountsArePlaces([]);
    assert Places(WasExecuted, []) == {} == Places(NotWritten, []);
  }

  lemma OneMore(run: nat -> Ran, rs: seq<Report>, executed: nat, writeFailures: nat, r: Report)
    requires SoFar(run, rs, executed, writeFailures) && run(|rs|) == OrderedWindow.Ok(r)
    ensures SoFar(run, rs + [r], executed + OrderedWindow.One(r.executed),
                  writeFailures + OrderedWindow.One(r.executed && r.cacheError.Some?))
  {
    CountsArePlaces(rs);
    CountsArePlaces(rs + [r]);
    PlacesPush(WasExecuted, rs, r);
    PlacesPush(NotWritten, rs, r);
  }

  /** No look at the caller's context before the k-th found it done. */
  ghost predicate NotYet(cancelled: nat -> bool, k: nat) { forall j :: 0 <= j < k ==> !cancelled(j) }

  /** What a sequential run gives, for given results of the mutants and given looks at the context: it ends at
      the first look that finds the context done or the first hard error, whichever comes first. Look 2 * i
      is before mutant i, look 2 * i + 1 after it. */
  ghost predicate SequentialGives(n: nat, run: nat -> Ran, cancelled: nat -> bool, a: Answered) {
    match a
    case Broke(e) =>
      exists i :: 0 <= i < n && run(i) == OrderedWindow.Hard(e) && NotYet(cancelled, 2 * i + 1) && forall j :: 0 <= j < i ==> run(j).Ok?
    case Results(rs, complete, executed, writeFailures) =>
      && SoFar(run, rs, executed, writeFailures)
      && (complete ==> |rs| == n && NotYet(cancelled, 2 * n))
      && (!complete ==> exists k :: 0 <= k < 2 * n && cancelled(k) && NotYet(cancelled, k) && |rs| == (k + 1) / 2)
  }

  /** One mutant after the other. The caller's context is looked at before and after each. */
  method ExecuteSequential(n: nat, run: nat -> Ran, cancelled: nat -> bool) returns (a: Answered)
    ensures SequentialGives(n, run, cancelled, a)
  {
    var reports: seq<Report>, executed, writeFailures := [], 0, 0;
    NoneSoFar(run);
    var i := 0;
    while i < n
      invariant i <= n && |reports| == i && SoFar(run, reports, executed, writeFailures) && NotYet(cancelled, 2 * i)
    {
      if cancelled(2 * i) { return Results(reports, false, executed, writeFailures); }
      match run(i) {
        case Hard(e) =>
          return Broke(e);
        case Ok(r) =>
          OneMore(run, reports, executed, writeFailures, r);
          if r.executed {
            executed := executed + 1;
            if r.cacheError.Some? {
              writeFailures := writeFailures + 1;
            }
          }
          reports := reports + [r];
      }
      if cancelled(2 * i + 1) { return Results(reports, false, executed, writeFailures); }
      i := i + 1;
    }
    a := Results(reports, true, executed, writeFailures);
  }

  lemma {:induction false} SameReports(run: nat -> Ran, rs: seq<Report>, e: nat, w: nat, qs: seq<Report>, f: nat, v: nat)
    requires SoFar(run, rs, e, w) && SoFar(run, qs, f, v) && |rs| == |qs|
    ensures rs == qs && e == f && w == v
  {
    forall i | 0 <= i < |rs| ensures rs[i] == qs[i] {
      assert run(i) == OrderedWindow.Ok(rs[i]) && run(i) == OrderedWindow.Ok(qs[i]);
    }
  }

  /** Whether the run stops at look k, or at the hard error before it. */
  predicate Stops(n: nat, run: nat -> Ran, cancelled: nat -> bool, k: nat) {
    k == 2 * n || cancelled(k) || (k % 2 == 1 && run(k / 2).Hard?)
  }

  /** A sequential run ends at the first stop. */
  lemma {:induction false} WhereItEnds(n: nat, run: nat -> Ran, cancelled: nat -> bool, a: Answered) returns (end: nat)
    requires SequentialGives(n, run, cancelled, a)
    ensures end <= 2 * n && Stops(n, run, cancelled, end) && forall k :: 0 <= k < end ==> !Stops(n, run, cancelled, k)
    ensures a.Broke? ==> end < 2 * n && end % 2 == 1 && run(end / 2) == OrderedWindow.Hard(a.error)
    ensures a.Results? ==> |a.reports| == (end + 1) / 2 && (a.complete <==> end == 2 * n)
    ensures a.Results? && end % 2 == 1 ==> run(end / 2).Ok?
  {
    match a
    case Broke(e) =>
      var i :| 0 <= i < n && run(i) == OrderedWindow.Hard(e) && NotYet(cancelled, 2 * i + 1) && forall j :: 0 <= j < i ==> run(j).Ok?;
      end := 2 * i + 1;
    case Results(rs, complete, _, _) =>
      if complete {
        end := 2 * n;
      } else {
        end :| 0 <= end < 2 * n && cancelled(end) && NotYet(cancelled, end) && |rs| == (end + 1) / 2;
      }
  }

  /** The results of the mutants and the looks at the context leave no choice: no hard error that is
      reached can be swallowed, and no result dropped. */
  lemma {:induction false} OneSequentialAnswer(n: nat, run: nat -> Ran, cancelled: nat -> bool, a: Answered, b: Answered)
    requires SequentialGives(n, run, cancelled, a) && SequentialGives(n, run, cancelled, b)
    ensures a == b
  {
    var x := WhereItEnds(n, run, cancelled, a);
    var y := WhereItEnds(n, run, cancelled, b);
    assert x == y;
    if a.Results? {
      SameReports(run, a.reports, a.executed, a.writeFailures, b.reports, b.executed, b.writeFailures);
    }
  }

  /** An undisturbed sequential run returns f(0), ..., f(n-1). */
  method UndisturbedSequence(n: nat, f: nat -> Report) returns (a: Answered)
    ensures a.Results? && a.complete && a.reports == OrderedWindow.Reports(n, f)
  {
    a := ExecuteSequential(n, (i: nat) => OrderedWindow.Ok(f(i)), (k: nat) => false);
  }

  // ---------- The three executors ----------

  /** What the parallel executor gives: without mutants it answers at once, otherwise its pool runs
      until it returns. */
  ghost predicate ParallelGives(workers: nat, n: nat, ctxErr: bool, acts: seq<Action>, t: Pool, a: Answered) {
    if n == 0 then a == Results([], true, 0, 0)
    else
      Run(workers, Fresh(n, ctxErr), acts, t) && t.returned
      && a == (if t.hardErr.Some? then Broke(t.hardErr.value)
               else Results(Collect(t.status), Complete(t), t.executed, t.writeFailures))
  }

  /** What the windowed executor gives: the error, or the recorded results and whether they are all. */
  ghost predicate WindowGives(count: nat, workers: nat, ctxErr: bool, steps: seq<OrderedWindow.Step>, t: OrderedWindow.State,
                              err: Option<OrderedWindow.Error>, reports: seq<Report>, complete: bool) {
    match OrderedWindow.Setup(count, workers, ctxErr)
    case Immediate(done, error) => !error && err.None? && reports == [] && complete == done
    case Loop(c) =>
      && OrderedWindow.Run(c, OrderedWindow.Init(ctxErr, ctxErr), steps, t) && t.pc == OrderedWindow.Returned
      && err == t.firstErr && reports == t.recorded && complete == t.complete
  }

  /** The three executors return the same list when nothing fails and nobody cancels, whatever the
      interleavings of the concurrent ones. */
  lemma ExecutorsAgree(n: nat, workers: nat, f: nat -> Report, a: Answered, acts: seq<Action>, p: Pool, b: Answered,
                       steps: seq<OrderedWindow.Step>, t: OrderedWindow.State, err: Option<OrderedWindow.Error>,
                       reports: seq<Report>, complete: bool)
    requires SequentialGives(n, (i: nat) => OrderedWindow.Ok(f(i)), (k: nat) => false, a)
    requires ParallelGives(workers, n, false, acts, p, b) && QuietRun(acts, f)
    requires WindowGives(n, workers, false, steps, t, err, reports, complete) && OrderedWindow.Smooth(steps, f)
    ensures a.Results? && b.Results? && err.None? && a.complete && b.complete && complete
    ensures a.reports == b.reports == reports == OrderedWindow.Reports(n, f)
  {
    if n > 0 {
      UndisturbedPool(workers, n, acts, p, f);
      OrderedWindow.SetupIsValid(n, workers, false);
      OrderedWindow.UndisturbedRun(OrderedWindow.Setup(n, workers, false).config, steps, t, f);
    }
  }

  /** Without mutants the three do not agree once the caller has cancelled: the windowed one calls itself
      incomplete, the other two do not look. */
  lemma {:induction false} NoMutants(workers: nat, ctxErr: bool, run: nat -> Ran, cancelled: nat -> bool, a: Answered,
                                     acts: seq<Action>, p: Pool, b: Answered, steps: seq<OrderedWindow.Step>,
                                     t: OrderedWindow.State, err: Option<OrderedWindow.Error>, reports: seq<Report>, complete: bool)
    requires SequentialGives(0, run, cancelled, a) && ParallelGives(workers, 0, ctxErr, acts, p, b)
    requires WindowGives(0, workers, ctxErr, steps, t, err, reports, complete)
    ensures a == b == Results([], true, 0, 0) && err.None? && reports == [] && (complete <==> !ctxErr)
  {
  }

  /** With mutants they agree on a context that is done beforehand: no results, incomplete, no error.
      So for that context they agree exactly when there are mutants. */
  lemma {:induction false} DoneBeforehand(n: nat, workers: nat, run: nat -> Ran, a: Answered, acts: seq<Action>, p: Pool, b: Answered,
                                          steps: seq<OrderedWindow.Step>, t: OrderedWindow.State,
                                          err: Option<OrderedWindow.Error>, reports: seq<Report>, complete: bool)
    requires SequentialGives(n, run, (k: nat) => true, a) && ParallelGives(workers, n, true, acts, p, b)
    requires WindowGives(n, workers, true, steps, t, err, reports, complete)
    ensures b == a && a.Results? && a.reports == reports == [] && err.None? && !complete
    ensures a.complete <==> n == 0
  {
    if n > 0 {
      var k := WhereItEnds(n, run, (k: nat) => true, a);
      assert Stops(n, run, (k: nat) => true, 0);
      OrderedWindow.SetupIsValid(n, workers, true);
      OrderedWindow.NothingQueued(OrderedWindow.Setup(n, workers, true).config, OrderedWindow.Init(true, true), steps, t);
      NothingStarted(workers, Fresh(n, true), acts, p);
      AllUnsent(n);
      NoneCollected(p.status);
    }
  }

  // ---------- The score ----------

  datatype Summary = Summary(generated: nat, killed: nat, survived: nat, invalid: nat, timeout: nat, unknown: nat,
                             unsupported: nat, equivalent: nat)

  const ZERO: Summary := Summary(0, 0, 0, 0, 0, 0, 0, 0)

  function Adding(s: Summary, v: Verdict): Summary {
    var t := s.(generated := s.generated + 1);
    match v
    case Killed => t.(killed := s.killed + 1)
    case Survived => t.(survived := s.survived + 1)
    case Invalid => t.(invalid := s.invalid + 1)
    case Timeout => t.(timeout := s.timeout + 1)
    case Unsupported => t.(unsupported := s.unsupported + 1)
    case Equivalent => t.(equivalent := s.equivalent + 1)
    case Unknown => t.(unknown := s.unknown + 1)
  }

  /** Every field counts the verdicts of its kind. */
  predicate Counts(s: Summary, vs: multiset<Verdict>) {
    && s.generated == |vs| && s.killed == vs[Killed] && s.survived == vs[Survived] && s.invalid == vs[Invalid]
    && s.timeout == vs[Timeout] && s.unknown == vs[Unknown] && s.unsupported == vs[Unsupported]
    && s.equivalent == vs[Equivalent]
  }

  lemma AddingCounts(s: Summary, vs: multiset<Verdict>, v: Verdict)
    requires Counts(s, vs)
    ensures Counts(Adding(s, v), vs + multiset{v})
  {
  }

  lemma OneSummary(s: Summary, t: Summary, vs: multiset<Verdict>)
    requires Counts(s, vs) && Counts(t, vs)
    ensures s == t
  {
  }

  function Verdicts(rs: seq<Report>): (vs: seq<Verdict>)
    ensures |vs| == |rs| && forall i :: 0 <= i < |rs| ==> vs[i] == rs[i].verdict
  {
    seq(|rs|, i requires 0 <= i < |rs| => rs[i].verdict)
  }

  /** Counts results one at a time, without keeping them. */
  class ScoreCounter {
    var summary: Summary
    ghost var seen: seq<Verdict>

    constructor ()
      ensures Valid() && seen == []
    {
      summary, seen := ZERO, [];
    }

    ghost predicate Valid() reads this { Counts(summary, multiset(seen)) }

    method Add(r: Report)
      requires Valid()
      modifies this
      ensures Valid() && seen == old(seen) + [r.verdict] && summary == Adding(old(summary), r.verdict)
    {
      AddingCounts(summary, multiset(seen), r.verdict);
      summary := Adding(summary, r.verdict);
      seen := seen + [r.verdict];
    }
  }

  lemma SummarizeStep(s: Summary, rs: seq<Report>, i: nat)
    requires i < |rs| && Counts(s.(generated := i), multiset(Verdicts(rs[..i])))
    ensures Counts(Adding(s, rs[i].verdict).(generated := i + 1), multiset(Verdicts(rs[..i + 1])))
  {
    assert Verdicts(rs[..i + 1]) == Verdicts(rs[..i]) + [rs[i].verdict];
    AddingCounts(s.(generated := i), multiset(Verdicts(rs[..i])), rs[i].verdict);
    assert Adding(s, rs[i].verdict).(generated := i + 1) == Adding(s.(generated := i), rs[i].verdict);
  }

  /** The summary of a list, in one pass. */
  method Summarize(rs: seq<Report>) returns (s: Summary)
    ensures Counts(s, multiset(Verdicts(rs)))
    ensures var vs := multiset(Verdicts(rs));
      && s.generated == |rs| && s.killed == vs[Killed] && s.survived == vs[Survived] && s.invalid == vs[Invalid]
      && s.timeout == vs[Timeout] && s.unknown == vs[Unknown] && s.unsupported == vs[Unsupported] && s.equivalent == vs[Equivalent]
  {
    s := ZERO.(generated := |rs|);
    for i := 0 to |rs|
      invariant s.generated == |rs| && Counts(s.(generated := i), multiset(Verdicts(rs[..i])))
    {
      SummarizeStep(s, rs, i);
      s := Adding(s, rs[i].verdict).(generated := |rs|);
    }
    assert rs[..|rs|] == rs;
  }

  lemma {:induction false} WithoutOne(b: seq<Report>, j: nat)
    requires j < |b|
    ensures multiset(b) == multiset(b[..j] + b[j + 1..]) + multiset{b[j]}
    ensures multiset(Verdicts(b)) == multiset(Verdicts(b[..j] + b[j + 1..])) + multiset{b[j].verdict}
  {
    var left, right := b[..j], b[j + 1..];
    assert b == left + [b[j]] + right;
    assert Verdicts(left + right) == Verdicts(left) + Verdicts(right);
    assert Verdicts(b) == Verdicts(left) + [b[j].verdict] + Verdicts(right);
  }

  lemma {:induction false} VerdictsOfPermutation(a: seq<Report>, b: seq<Report>)
    requires multiset(a) == multiset(b)
    ensures multiset(Verdicts(a)) == multiset(Verdicts(b))
    decreases |a|
  {
    assert |a| == |multiset(a)| == |multiset(b)| == |b|;
    if a != [] {
      assert a[0] in multiset(b);
      var j :| 0 <= j < |b| && b[j] == a[0];
      WithoutOne(a, 0);
      WithoutOne(b, j);
      var front, rest := a[..0] + a[1..], b[..j] + b[j + 1..];
      Sorting.SameRest(multiset(front), multiset(rest), a[0]);
      VerdictsOfPermutation(front, rest);
    }
  }

  lemma {:induction false} OneMoreVerdict(rs: seq<Report>, i: nat)
    requires i < |rs|
    ensures Verdicts(rs[..i + 1]) == Verdicts(rs[..i]) + [rs[i].verdict]
  {
  }

  /** The results streamed through the counter. */
  method Stream(rs: seq<Report>) returns (s: Summary)
    ensures Counts(s, multiset(Verdicts(rs)))
  {
    var counter := new ScoreCounter();
    for i := 0 to |rs|
      invariant counter.Valid() && counter.seen == Verdicts(rs[..i])
    {
      OneMoreVerdict(rs, i);
      counter.Add(rs[i]);
    }
    assert rs[..|rs|] == rs;
    s := counter.summary;
  }

  /** The streamed summary and score are those of the list, in whatever order the results were added. */
  method StreamedScore(streamed: seq<Report>, rs: seq<Report>) returns (counted: Summary, listed: Summary)
    requires multiset(streamed) == multiset(rs)
    ensures counted == listed && Score(counted) == Score(listed) && Counts(counted, multiset(Verdicts(rs)))
  {
    VerdictsOfPermutation(streamed, rs);
    counted := Stream(streamed);
    listed := Summarize(rs);
    OneSummary(counted, listed, multiset(Verdicts(rs)));
  }

  /** The score in percent, exactly; None when nothing counts. */
  function Score(s: Summary): Option<real> {
    if s.killed + s.survived == 0 then None else Some(100.0 * s.killed as real / (s.killed + s.survived) as real)
  }

  lemma KindsAddUp(vs: multiset<Verdict>)
    ensures |vs| == vs[Killed] + vs[Survived] + vs[Invalid] + vs[Timeout] + vs[Unknown] + vs[Unsupported] + vs[Equivalent]
    decreases |vs|
  {
    if vs == multiset{} {
      assert |vs| == 0;
    } else {
      var v :| v in vs;
      var rest := vs - multiset{v};
      assert vs == rest + multiset{v};
      KindsAddUp(rest);
      assert v.Killed? || v.Survived? || v.Invalid? || v.Timeout? || v.Unknown? || v.Unsupported? || v.Equivalent?;
    }
  }

  /** Only killed and survived mutants are scored: the score lies between 0 and 100, and is 100
      exactly when none of them survived. */
  lemma ScoreMeans(s: Summary, vs: multiset<Verdict>)
    requires Counts(s, vs)
    ensures s.generated == s.killed + s.survived + s.invalid + s.timeout + s.unknown + s.unsupported + s.equivalent
    ensures Score(s).None? <==> vs[Killed] == 0 && vs[Survived] == 0
    ensures Score(s).Some? ==> Score(s).value * (vs[Killed] + vs[Survived]) as real == 100.0 * vs[Killed] as real
    ensures Score(s).Some? ==> 0.0 <= Score(s).value <= 100.0 && (Score(s).value == 100.0 <==> s.survived == 0)
  {
    KindsAddUp(vs);
    if Score(s).Some? {
      Share(s.killed as real, s.survived as real);
    }
  }

  lemma Share(k: real, v: real)
    requires k >= 0.0 && v >= 0.0 && k + v > 0.0
    ensures 0.0 <= 100.0 * k / (k + v) <= 100.0 && (100.0 * k / (k + v) == 100.0 <==> v == 0.0)
  {
    var q := 100.0 * k / (k + v);
    assert q * (k + v) == 100.0 * k;
    if v == 0.0 { assert q == 100.0; }
    if q == 100.0 { assert 100.0 * k + 100.0 * v == 100.0 * k; }
  }

  // ---------- The report ----------

  /** What the validator looks at. */
  datatype Document = Document(discovered: nat, retained: nat, completed: nat, complete: bool, results: seq<Report>, summary: Summary)

  predicate BoundsOk(d: Document) {
    && d.discovered >= d.retained >= d.completed && d.completed == |d.results|
    && (d.complete ==> d.retained == d.completed)
  }

  predicate Distinct(rs: seq<Report>) { forall i, j :: 0 <= i < j < |rs| ==> rs[i].mutation != rs[j].mutation }

  predicate Named(rs: seq<Report>) { forall i :: 0 <= i < |rs| ==> rs[i].mutation != "" }

  /** What the validator accepts. */
  predicate Acceptable(d: Document) {
    BoundsOk(d) && Named(d.results) && Distinct(d.results) && Counts(d.summary, multiset(Verdicts(d.results)))
  }

  /** The names seen so far. */
  ghost predicate Seen(rs: seq<Report>, i: nat, ids: set<string>) {
    i <= |rs| && Named(rs[..i]) && Distinct(rs[..i]) && forall id :: id in ids <==> exists k :: 0 <= k < i && rs[k].mutation == id
  }

  lemma SeesOne(rs: seq<Report>, i: nat, ids: set<string>)
    requires Seen(rs, i, ids) && i < |rs|
    ensures rs[i].mutation == "" || rs[i].mutation in ids ==> !Named(rs) || !Distinct(rs)
    ensures rs[i].mutation != "" && rs[i].mutation !in ids ==> Seen(rs, i + 1, ids + {rs[i].mutation})
  {
    if rs[i].mutation in ids {
      var k :| 0 <= k < i && rs[k].mutation == rs[i].mutation;
    }
  }

  /** The loop over the results: their names, and how many there are of each verdict. */
  method CheckResults(rs: seq<Report>) returns (counts: Option<Summary>)
    ensures counts.Some? <==> Named(rs) && Distinct(rs)
    ensures counts.Some? ==> Counts(counts.value, multiset(Verdicts(rs)))
  {
    var s, ids: set<string> := ZERO, {};
    for i := 0 to |rs|
      invariant Counts(s, multiset(Verdicts(rs[..i]))) && Seen(rs, i, ids)
    {
      SeesOne(rs, i, ids);
      if rs[i].mutation == "" || rs[i].mutation in ids { return None; }
      ids := ids + {rs[i].mutation};
      assert Verdicts(rs[..i + 1]) == Verdicts(rs[..i]) + [rs[i].verdict];
      AddingCounts(s, multiset(Verdicts(rs[..i])), rs[i].verdict);
      s := Adding(s, rs[i].verdict);
    }
    assert rs[..|rs|] == rs;
    counts := Some(s);
  }

  /** The bounds, the IDs and the counts of a report. */
  method Validate(d: Document) returns (ok: bool)
    ensures ok <==> Acceptable(d)
    ensures ok <==>
      && d.discovered >= d.retained >= d.completed == |d.results| && (d.complete ==> d.retained == d.completed)
      && (forall r :: r in d.results ==> r.mutation != "")
      && (forall i, j :: 0 <= i < j < |d.results| ==> d.results[i].mutation != d.results[j].mutation)
      && Counts(d.summary, multiset(Verdicts(d.results)))
  {
    if d.discovered < d.retained || d.retained < d.completed || d.completed != |d.results| { return false; }
    if d.complete && d.retained != d.completed { return false; }
    var counts := CheckResults(d.results);
    if counts.None? { return false; }
    if d.summary == counts.value { return true; }
    if Counts(d.summary, multiset(Verdicts(d.results))) { OneSummary(d.summary, counts.value, multiset(Verdicts(d.results))); }
    ok := false;
  }

  // ---------- What every executor owes the report ----------

  /** The IDs of the mutants, as the discovery checks them. */
  predicate Identified(ids: seq<string>) {
    (forall i :: 0 <= i < |ids| ==> ids[i] != "") && forall i, j :: 0 <= i < j < |ids| ==> ids[i] != ids[j]
  }

  /** The results are those of some of the mutants, in the order of the mutants. */
  predicate Drawn(rs: seq<Report>, ids: seq<string>)
    decreases |ids|
  {
    rs == [] || (ids != [] &&
      ((rs[|rs| - 1].mutation == ids[|ids| - 1] && Drawn(rs[..|rs| - 1], ids[..|ids| - 1])) || Drawn(rs, ids[..|ids| - 1])))
  }

  lemma {:induction false} DrawnNames(rs: seq<Report>, ids: seq<string>)
    requires Drawn(rs, ids) && Identified(ids)
    ensures |rs| <= |ids| && Named(rs) && Distinct(rs) && forall k :: 0 <= k < |rs| ==> rs[k].mutation in ids
    decreases |ids|
  {
    if rs != [] {
      var n, m := |ids| - 1, |rs| - 1;
      assert ids == ids[..n] + [ids[n]];
      if rs[m].mutation == ids[n] && Drawn(rs[..m], ids[..n]) {
        DrawnNames(rs[..m], ids[..n]);
        assert forall k :: 0 <= k < m ==> rs[k] == rs[..m][k];
      } else {
        DrawnNames(rs, ids[..n]);
      }
    }
  }

  /** Every executor owes results of its mutants, and all of them when it calls itself complete. */
  predicate Owed(ids: seq<string>, results: seq<Report>, complete: bool) {
    Drawn(results, ids) && (complete ==> |results| == |ids|)
  }

  lemma {:induction false} PrefixDrawn(rs: seq<Report>, ids: seq<string>)
    requires |rs| <= |ids| && forall i :: 0 <= i < |rs| ==> rs[i].mutation == ids[i]
    ensures Drawn(rs, ids)
    decreases |ids|
  {
    if rs != [] {
      var n := |ids| - 1;
      if |rs| == |ids| {
        PrefixDrawn(rs[..n], ids[..n]);
      } else {
        PrefixDrawn(rs, ids[..n]);
      }
    }
  }

  /** The sequential executor pays it, ... */
  lemma {:induction false} SequenceOwes(ids: seq<string>, run: nat -> Ran, cancelled: nat -> bool, a: Answered)
    requires forall i :: 0 <= i < |ids| && run(i).Ok? ==> run(i).report.mutation == ids[i]
    requires SequentialGives(|ids|, run, cancelled, a) && a.Results?
    ensures Owed(ids, a.reports, a.complete)
  {
    var end := WhereItEnds(|ids|, run, cancelled, a);
    forall i | 0 <= i < |a.reports| ensures a.reports[i].mutation == ids[i] {
      assert run(i) == OrderedWindow.Ok(a.reports[i]);
    }
    PrefixDrawn(a.reports, ids);
  }

  /** ... the windowed one, ... */
  lemma {:induction false} WindowOwes(c: OrderedWindow.Config, ctxErr: bool, cancelled: bool, steps: seq<OrderedWindow.Step>,
                                      t: OrderedWindow.State, ids: seq<string>)
    requires OrderedWindow.ValidConfig(c) && (cancelled ==> ctxErr) && c.count == |ids|
    requires OrderedWindow.Run(c, OrderedWindow.Init(ctxErr, cancelled), steps, t) && t.pc == OrderedWindow.Returned
    requires forall i :: i in t.produced && i < |ids| && t.produced[i].Ok? ==> t.produced[i].report.mutation == ids[i]
    ensures Owed(ids, t.recorded, t.complete)
    ensures forall i :: 0 <= i < |t.recorded| ==> i in t.produced && t.produced[i] == OrderedWindow.Ok(t.recorded[i])
  {
    OrderedWindow.InitInv(c, ctxErr, cancelled);
    OrderedWindow.RunKeepsInv(c, OrderedWindow.Init(ctxErr, cancelled), steps, t);
    OrderedWindow.ReturnedResult(c, t);
    forall i | 0 <= i < |t.recorded| ensures t.recorded[i].mutation == ids[i] {
      assert t.produced[i] == OrderedWindow.Ok(t.recorded[i]);
    }
    PrefixDrawn(t.recorded, ids);
  }

  /** ... and the parallel one. */
  lemma {:induction false} PoolOwes(workers: nat, n: nat, ctxErr: bool, acts: seq<Action>, t: Pool, ids: seq<string>)
    requires Run(workers, Fresh(n, ctxErr), acts, t) && t.returned && |ids| == n
    requires forall i :: 0 <= i < |t.status| && i < n && t.status[i].Stored? ==> t.status[i].report.mutation == ids[i]
    ensures Owed(ids, Collect(t.status), Complete(t))
    ensures |Collect(t.status)| == |set i: nat | i < |t.status| && t.status[i].Stored?|
    ensures forall i: nat :: i < |t.status| && t.status[i].Stored? ==> t.status[i].report in Collect(t.status)
  {
    Answer(workers, n, ctxErr, acts, t);
    CollectDrawn(t.status, ids);
  }

  lemma {:induction false} CollectDrawn(st: seq<Status>, ids: seq<string>)
    requires |st| == |ids| && forall i :: 0 <= i < |st| && st[i].Stored? ==> st[i].report.mutation == ids[i]
    ensures Drawn(Collect(st), ids)
    decreases |st|
  {
    if st != [] {
      var n := |st| - 1;
      CollectDrawn(st[..n], ids[..n]);
      assert st[n].Stored? ==> Collect(st)[..|Collect(st)| - 1] == Collect(st[..n]);
    }
  }

  /** Every report over what an executor returned passes the validator. */
  method BuildReport(discovered: nat, ids: seq<string>, results: seq<Report>, complete: bool) returns (d: Document)
    requires Identified(ids) && |ids| <= discovered && Owed(ids, results, complete)
    ensures Acceptable(d) && d.results == results && d.complete == complete
    ensures d.discovered == discovered && d.retained == |ids| && d.completed == |results|
  {
    DrawnNames(results, ids);
    var summary := Summarize(results);
    d := Document(discovered, |ids|, |results|, complete, results, summary);
  }
}
