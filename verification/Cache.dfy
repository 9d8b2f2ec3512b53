/** The verdict cache: execution identities, the store, and analyses that share it. */
module Cache {
  import opened Base
  import opened Lines

  const SCHEMA: string := "mutation-judge-cache/v2"
  const EXECUTION_SCHEMA: string := "mutation-judge-execution/v5"
  const BAR: char := '|'

  datatype Result = Result(verdict: Verdict, detail: string)

  /** A conclusion that does not depend on the moment: TIMEOUT can come from transient load, UNKNOWN from an
      interrupted start, and the other two are never the outcome of a run. */
  predicate Stable(v: Verdict) { v in {Killed, Survived, Invalid} }

  /** What is persisted. */
  predicate Cacheable(r: Result) { r.verdict == Killed || r.verdict == Survived || r.verdict == Invalid }

  predicate ValidKey(key: string) {
    |key| == 64 && forall i :: 0 <= i < |key| ==> '0' <= key[i] <= '9' || 'a' <= key[i] <= 'f'
  }

  // ---------- What is executed, and its identity ----------

  datatype Toolchain = Toolchain(goVersion: string, goos: string, goarch: string, cgo: string, flags: string, configHash: string)

  datatype MutationRef = MutationRef(file: string, start: nat, operator: string, rule: string, original: string, replacement: string)

  type Source = map<string, string>

  /** One mutant to execute, with everything its execution may depend on. */
  datatype Job = Job(toolVersion: string, operatorVersion: string, toolchain: Toolchain, source: Source, environment: seq<string>,
                     timeout: nat, configTestRun: string, backend: string, backendVersion: string, mut: MutationRef,
                     workRel: string, scope: seq<string>, targets: seq<string>, testRun: string)

  /** What the backend is given. */
  datatype Execution = Execution(sandbox: Option<Source>, workRel: string, scope: seq<string>, testRun: string, timeout: nat,
                                 environment: seq<string>, goVersion: string, backend: string, backendVersion: string)

  datatype Identity = Identity(schema: string, toolVersion: string, operatorVersion: string, toolchain: string, sourceDigest: string,
                               environmentHash: string, timeout: nat, configTestRun: string, backend: string,
                               backendVersion: string, mutationId: string, replacement: string, workRel: string,
                               scope: seq<string>, targets: seq<string>, testRun: string)

  /** The digests, which are not modelled. */
  datatype Digests = Digests(key: Identity -> string, source: Source -> string, environment: seq<string> -> string,
                             mutation: MutationRef -> string)

  function ToolchainKey(t: Toolchain): string {
    Join([t.goVersion, t.goos, t.goarch, t.cgo, t.flags, t.configHash], BAR)
  }

  /** Only the flags may contain the separator. */
  predicate Delimited(t: Toolchain) {
    BAR !in t.goVersion && BAR !in t.goos && BAR !in t.goarch && BAR !in t.cgo && BAR !in t.configHash
  }

  function IdentityOf(d: Digests, j: Job): Identity {
    Identity(EXECUTION_SCHEMA, j.toolVersion, j.operatorVersion, ToolchainKey(j.toolchain), d.source(j.source),
             d.environment(j.environment), j.timeout, j.configTestRun, j.backend, j.backendVersion, d.mutation(j.mut),
             j.mut.replacement, j.workRel, j.scope, j.targets, j.testRun)
  }

  function KeyOf(d: Digests, j: Job): string { d.key(IdentityOf(d, j)) }

  /** No two of the jobs that occur collide in a digest, and only flags contain the separator. This is
      about finitely many jobs: no digest of bounded length is free of collisions on all inputs. */
  predicate NoCollision(d: Digests, jobs: set<Job>) {
    (forall j :: j in jobs ==> Delimited(j.toolchain))
    && forall j, k :: j in jobs && k in jobs ==>
         && (KeyOf(d, j) == KeyOf(d, k) ==> IdentityOf(d, j) == IdentityOf(d, k))
         && (d.source(j.source) == d.source(k.source) ==> j.source == k.source)
         && (d.environment(j.environment) == d.environment(k.environment) ==> j.environment == k.environment)
         && (d.mutation(j.mut) == d.mutation(k.mut) ==> j.mut == k.mut)
  }

  /** The tree with the mutation applied, when the original stands where it was discovered. */
  function Sandbox(s: Source, m: MutationRef): Option<Source> {
    if m.file in s && m.original != "" && m.start + |m.original| <= |s[m.file]|
       && s[m.file][m.start..m.start + |m.original|] == m.original
    then Some(s[m.file := s[m.file][..m.start] + m.replacement + s[m.file][m.start + |m.original|..]])
    else None
  }

  /** A mutation is applied exactly when its original, which is not empty, stands at its offset, and then the
      replacement stands there instead and everything else is as before. */
  lemma SandboxExactly(s: Source, m: MutationRef, t: Source)
    ensures Sandbox(s, m) == Some(t) <==>
      m.file in s && m.original != "" && exists a: string, b: string ::
        |a| == m.start && s[m.file] == a + m.original + b && t == s[m.file := a + m.replacement + b]
  {
    if Sandbox(s, m) == Some(t) {
      var a, b := s[m.file][..m.start], s[m.file][m.start + |m.original|..];
      assert s[m.file] == a + m.original + b;
    }
    if m.file in s {
      if a: string, b: string :| |a| == m.start && s[m.file] == a + m.original + b && t == s[m.file := a + m.replacement + b] {
        assert s[m.file][..m.start] == a && s[m.file][m.start + |m.original|..] == b;
        assert s[m.file][m.start..m.start + |m.original|] == m.original;
      }
    }
  }

  function ExecutionOf(j: Job): Execution {
    Execution(Sandbox(j.source, j.mut), j.workRel, j.scope, j.testRun, j.timeout, j.environment, j.toolchain.goVersion,
              j.backend, j.backendVersion)
  }

  lemma FirstField(a: string, x: string, b: string, y: string)
    requires BAR !in a && BAR !in b && a + [BAR] + x == b + [BAR] + y
    ensures a == b && x == y
  {
    AroundAt(a, BAR, x);
    AroundAt(b, BAR, y);
  }

  lemma LastField(x: string, h: string, y: string, k: string)
    requires BAR !in h && BAR !in k && x + [BAR] + h == y + [BAR] + k
    ensures x == y && h == k
  {
    var s, t := x + [BAR] + h, y + [BAR] + k;
    forall i | |x| < i < |s| ensures s[i] != BAR { assert s[i] == h[i - |x| - 1]; }
    forall i | |y| < i < |t| ensures t[i] != BAR { assert t[i] == k[i - |y| - 1]; }
    assert s[|x|] == BAR && t[|y|] == BAR;
    assert s[..|x|] == x && s[|x| + 1..] == h && t[..|y|] == y && t[|y| + 1..] == k;
  }

  lemma JoinCons(a: string, rest: seq<string>)
    requires rest != []
    ensures Join([a] + rest, BAR) == a + [BAR] + Join(rest, BAR)
  {
    assert ([a] + rest)[1..] == rest;
  }

  lemma KeyShape(t: Toolchain)
    ensures ToolchainKey(t) == t.goVersion + [BAR] + (t.goos + [BAR] + (t.goarch + [BAR] + (t.cgo + [BAR] + (t.flags + [BAR] + t.configHash))))
  {
    var l5 := [t.flags] + [t.configHash];
    var l4 := [t.cgo] + l5;
    var l3 := [t.goarch] + l4;
    var l2 := [t.goos] + l3;
    assert [t.goVersion, t.goos, t.goarch, t.cgo, t.flags, t.configHash] == [t.goVersion] + l2;
    JoinCons(t.goVersion, l2);
    JoinCons(t.goos, l3);
    JoinCons(t.goarch, l4);
    JoinCons(t.cgo, l5);
    JoinCons(t.flags, [t.configHash]);
  }

  /** The joined toolchain fields determine the fields, even when the flags contain the separator. */
  lemma ToolchainKeyInjective(t: Toolchain, u: Toolchain)
    requires Delimited(t) && Delimited(u) && ToolchainKey(t) == ToolchainKey(u)
    ensures t == u
  {
    KeyShape(t);
    KeyShape(u);
    var t5, u5 := t.flags + [BAR] + t.configHash, u.flags + [BAR] + u.configHash;
    var t4, u4 := t.cgo + [BAR] + t5, u.cgo + [BAR] + u5;
    var t3, u3 := t.goarch + [BAR] + t4, u.goarch + [BAR] + u4;
    var t2, u2 := t.goos + [BAR] + t3, u.goos + [BAR] + u3;
    FirstField(t.goVersion, t2, u.goVersion, u2);
    FirstField(t.goos, t3, u.goos, u3);
    FirstField(t.goarch, t4, u.goarch, u4);
    FirstField(t.cgo, t5, u.cgo, u5);
    LastField(t.flags, t.configHash, u.flags, u.configHash);
  }

  /** The first field, up to its first separator, and what is left before the rest. */
  lemma {:induction false} CutField(f: string, x: string) returns (a: string, p: string)
    ensures BAR !in a && f + [BAR] + x == a + [BAR] + (p + x)
    ensures BAR !in f ==> a == f && p == ""
  {
    match Around(f, BAR)
    case None =>
      a, p := f, "";
    case Some(c) =>
      a, p := c.0, c.1 + [BAR];
      assert f[|a|] == BAR;
      assert f + [BAR] + x == a + [BAR] + (c.1 + [BAR] + x);
  }

  /** The last field, from its last separator, and what is before it. */
  lemma {:induction false} CutLast(f: string, h: string) returns (p: string, k: string)
    ensures BAR !in k && f + [BAR] + h == p + [BAR] + k
    decreases |h|
  {
    match Around(h, BAR)
    case None =>
      p, k := f, h;
    case Some(c) =>
      p, k := CutLast(f + [BAR] + c.0, c.1);
      assert f + [BAR] + h == (f + [BAR] + c.0) + [BAR] + c.1;
  }

  /** Every joined text is that of a toolchain in which only the flags contain the separator. */
  lemma {:induction false} DelimitedTwin(t: Toolchain) returns (u: Toolchain)
    ensures Delimited(u) && ToolchainKey(u) == ToolchainKey(t)
  {
    var t5 := t.flags + [BAR] + t.configHash;
    var t4 := t.cgo + [BAR] + t5;
    var t3 := t.goarch + [BAR] + t4;
    var t2 := t.goos + [BAR] + t3;
    var a1, p1 := CutField(t.goVersion, t2);
    assert p1 + t2 == (p1 + t.goos) + [BAR] + t3;
    var a2, p2 := CutField(p1 + t.goos, t3);
    assert p2 + t3 == (p2 + t.goarch) + [BAR] + t4;
    var a3, p3 := CutField(p2 + t.goarch, t4);
    assert p3 + t4 == (p3 + t.cgo) + [BAR] + t5;
    var a4, p4 := CutField(p3 + t.cgo, t5);
    assert p4 + t5 == (p4 + t.flags) + [BAR] + t.configHash;
    var flags, hash := CutLast(p4 + t.flags, t.configHash);
    u := Toolchain(a1, a2, a3, a4, flags, hash);
    KeyShape(t);
    KeyShape(u);
  }

  /** A toolchain is the only one of those with its joined text exactly when only its flags contain the
      separator. */
  lemma {:induction false} ToolchainKeyExactly(t: Toolchain)
    ensures Delimited(t) <==> forall u :: Delimited(u) && ToolchainKey(u) == ToolchainKey(t) ==> u == t
  {
    if Delimited(t) {
      forall u | Delimited(u) && ToolchainKey(u) == ToolchainKey(t) ensures u == t { ToolchainKeyInjective(u, t); }
    } else {
      var u := DelimitedTwin(t);
      assert u != t;
    }
  }

  predicate Plain(t: Toolchain) { Delimited(t) && BAR !in t.flags }

  function Bars(s: string): nat { multiset(s)[BAR] }

  lemma {:induction false} BarsOfJoined(a: string, b: string)
    ensures Bars(a + [BAR] + b) == Bars(a) + 1 + Bars(b)
    ensures Bars(a) == 0 <==> BAR !in a
  {
    assert BAR in a <==> BAR in multiset(a);
  }

  lemma {:induction false} BarsOfKey(t: Toolchain)
    ensures Bars(ToolchainKey(t)) == 5 + Bars(t.goVersion) + Bars(t.goos) + Bars(t.goarch) + Bars(t.cgo) + Bars(t.flags) + Bars(t.configHash)
    ensures Plain(t) <==> Bars(ToolchainKey(t)) == 5
  {
    var t5 := t.flags + [BAR] + t.configHash;
    var t4 := t.cgo + [BAR] + t5;
    var t3 := t.goarch + [BAR] + t4;
    var t2 := t.goos + [BAR] + t3;
    KeyShape(t);
    BarsOfJoined(t.goVersion, t2);
    BarsOfJoined(t.goos, t3);
    BarsOfJoined(t.goarch, t4);
    BarsOfJoined(t.cgo, t5);
    BarsOfJoined(t.flags, t.configHash);
    assert BAR in t.configHash <==> BAR in multiset(t.configHash);
  }

  /** Flags with a separator can give what is before it to the field before them. */
  lemma {:induction false} SplitFlags(t: Toolchain) returns (u: Toolchain)
    requires BAR in t.flags
    ensures ToolchainKey(u) == ToolchainKey(t) && u != t
  {
    var c := Around(t.flags, BAR).value;
    u := t.(cgo := t.cgo + [BAR] + c.0, flags := c.1);
    assert |u.flags| < |t.flags|;
    assert u.cgo + [BAR] + (u.flags + [BAR] + u.configHash) == t.cgo + [BAR] + (t.flags + [BAR] + t.configHash);
    KeyShape(t);
    KeyShape(u);
  }

  /** Among all toolchains, one is the only one with its joined text exactly when none of its fields contains
      the separator. */
  lemma {:induction false} ToolchainKeyUnique(t: Toolchain)
    ensures Plain(t) <==> forall u :: ToolchainKey(u) == ToolchainKey(t) ==> u == t
  {
    if Plain(t) {
      forall u | ToolchainKey(u) == ToolchainKey(t) ensures u == t {
        BarsOfKey(t);
        BarsOfKey(u);
        ToolchainKeyInjective(u, t);
      }
    } else if BAR in t.flags {
      var u := SplitFlags(t);
    } else {
      var u := DelimitedTwin(t);
      assert u != t;
    }
  }

  /** Two toolchains with one joined text; they are made up, and not output of `go env`. */
  lemma ToolchainKeysCollide() returns (t: Toolchain, u: Toolchain)
    ensures ToolchainKey(t) == ToolchainKey(u) && t.goVersion != u.goVersion
  {
    t := Toolchain("a|b", "c", "d", "e", "f", "g");
    u := Toolchain("a", "b", "c|d", "e", "f", "g");
    KeyShape(t);
    KeyShape(u);
    var tail := "e" + [BAR] + ("f" + [BAR] + "g");
    assert "a|b" + [BAR] + ("c" + [BAR] + ("d" + [BAR] + tail)) == "a" + [BAR] + ("b" + [BAR] + ("c|d" + [BAR] + tail));
  }

  /** Jobs with the same key are the same job: no field that is part of the identity may be left out of it. */
  lemma SameKeySameJob(d: Digests, jobs: set<Job>, j: Job, k: Job)
    requires NoCollision(d, jobs) && j in jobs && k in jobs && KeyOf(d, j) == KeyOf(d, k)
    ensures j == k
  {
    ToolchainKeyInjective(j.toolchain, k.toolchain);
  }

  /** Jobs with the same key are the same execution. */
  lemma SameKeySameExecution(d: Digests, jobs: set<Job>, j: Job, k: Job)
    requires NoCollision(d, jobs) && j in jobs && k in jobs && KeyOf(d, j) == KeyOf(d, k)
    ensures ExecutionOf(j) == ExecutionOf(k)
  {
    ToolchainKeyInjective(j.toolchain, k.toolchain);
  }

  // ---------- The store ----------

  /** What a key's file holds. */
  datatype File = Entry(schema: string, result: Result) | Unreadable

  type Files = map<string, File>

  predicate Usable(f: File) { f.Entry? && f.schema == SCHEMA && Cacheable(f.result) }

  function Lookup(files: Files, enabled: bool, key: string): Option<Result> {
    if enabled && ValidKey(key) && key in files && Usable(files[key]) then Some(files[key].result) else None
  }

  /** What can go wrong or be noticed while an entry is written. */
  datatype Weather = Weather(cancelledBefore: bool, writeFails: bool, cancelledAfter: bool, renameFails: bool)

  const CLEAR: Weather := Weather(false, false, false, false)

  /** Whether the entry is committed. */
  predicate Commits(enabled: bool, key: string, r: Result, w: Weather) {
    enabled && ValidKey(key) && Cacheable(r) && !w.cancelledBefore && !w.writeFails && !w.cancelledAfter && !w.renameFails
  }

  /** Whether the caller is told that the entry could not be written. */
  predicate Fails(enabled: bool, key: string, r: Result, w: Weather) {
    enabled && (!ValidKey(key) || (Cacheable(r) && !w.cancelledBefore && (w.writeFails || (!w.cancelledAfter && w.renameFails))))
  }

  /** What happens to the files: a put, or something else replaces or removes a file. */
  datatype Event = Put(key: string, result: Result, weather: Weather) | Outside(key: string, file: Option<File>)

  function After(enabled: bool, first: Files, events: seq<Event>): Files {
    if events == [] then first
    else
      var files := After(enabled, first, events[..|events| - 1]);
      match events[|events| - 1]
      case Put(k, r, w) => if Commits(enabled, k, r, w) then files[k := Entry(SCHEMA, r)] else files
      case Outside(k, Some(f)) => files[k := f]
      case Outside(k, None) => files - {k}
  }

  /** What the last event that reached the key's file left there: the result of a committed put, or
      that of whatever usable entry came from outside. */
  function Remembered(enabled: bool, first: Files, events: seq<Event>, key: string): Option<Result> {
    if events == [] then (if key in first && Usable(first[key]) then Some(first[key].result) else None)
    else
      match events[|events| - 1]
      case Put(k, r, w) =>
        if k == key && Commits(enabled, k, r, w) then Some(r) else Remembered(enabled, first, events[..|events| - 1], key)
      case Outside(k, f) =>
        if k != key then Remembered(enabled, first, events[..|events| - 1], key)
        else if f.Some? && Usable(f.value) then Some(f.value.result)
        else None
  }

  /** Looking the file up gives what was remembered: a committed put is found until the file is put
      again, lost or spoiled; a put that does not commit changes nothing. */
  lemma {:induction false} LookupRemembers(enabled: bool, first: Files, events: seq<Event>, key: string)
    ensures Lookup(After(enabled, first, events), enabled, key)
            == if enabled && ValidKey(key) then Remembered(enabled, first, events, key) else None
    ensures events != [] && events[|events| - 1] == Outside(key, None) ==> key !in After(enabled, first, events)
    decreases |events|
  {
    if events != [] { LookupRemembers(enabled, first, events[..|events| - 1], key); }
  }

  /** 64 lower-case hexadecimal digits. */
  predicate IsDigest(key: string) { |key| == 64 && forall c :: c in key ==> c in "0123456789abcdef" }

  lemma KeysAreDigests(key: string)
    ensures ValidKey(key) <==> IsDigest(key)
  {
    forall c: char ensures c in "0123456789abcdef" <==> '0' <= c <= '9' || 'a' <= c <= 'f' { HexDigits(c); }
    if IsDigest(key) {
      forall i | 0 <= i < |key| ensures '0' <= key[i] <= '9' || 'a' <= key[i] <= 'f' { assert key[i] in key; }
    }
  }

  lemma HexDigits(c: char)
    ensures c in "0123456789abcdef" <==> '0' <= c <= '9' || 'a' <= c <= 'f'
  {
    var hex := "0123456789abcdef";
    if '0' <= c <= '9' { assert hex[(c - '0') as nat] == c; }
    if 'a' <= c <= 'f' { assert hex[10 + (c - 'a') as nat] == c; }
  }

  class Store {
    const enabled: bool
    var files: Files
    ghost const first: Files
    ghost var history: seq<Event>

    ghost predicate Valid() reads this { files == After(enabled, first, history) }

    constructor (enabled: bool, files: Files)
      ensures Valid() && this.enabled == enabled && this.files == first == files && history == []
    {
      this.enabled := enabled;
      this.files := files;
      first, history := files, [];
    }

    method Get(key: string) returns (r: Option<Result>)
      requires Valid()
      ensures r == if enabled && ValidKey(key) then Remembered(enabled, first, history, key) else None
      ensures r == if enabled && IsDigest(key) && key in files && files[key].Entry? && files[key].schema == SCHEMA
                      && files[key].result.verdict in {Killed, Survived, Invalid}
                   then Some(files[key].result) else None
    {
      LookupRemembers(enabled, first, history, key);
      KeysAreDigests(key);
      if !enabled || !ValidKey(key) { return None; }
      if key !in files { return None; }
      var f := files[key];
      if f.Unreadable? || f.schema != SCHEMA || !Cacheable(f.result) { return None; }
      r := Some(f.result);
    }

    method PutContext(key: string, r: Result, w: Weather) returns (failed: bool)
      requires Valid()
      modifies this`files, this`history
      ensures Valid() && history == old(history) + [Put(key, r, w)]
      ensures r.verdict in {Timeout, Unknown, Unsupported, Equivalent} ==> files == old(files)
      ensures w.cancelledBefore || w.cancelledAfter || w.writeFails || w.renameFails ==> files == old(files)
      ensures !enabled || !IsDigest(key) ==> files == old(files) && (failed <==> enabled)
      ensures enabled && IsDigest(key) && r.verdict in {Killed, Survived, Invalid} && w == CLEAR
              ==> !failed && Lookup(files, enabled, key) == Some(r)
      ensures enabled && IsDigest(key) && r.verdict in {Killed, Survived, Invalid}
              ==> (failed <==> !w.cancelledBefore && (w.writeFails || (!w.cancelledAfter && w.renameFails)))
      ensures enabled && IsDigest(key) && r.verdict !in {Killed, Survived, Invalid} ==> !failed
      ensures files == if Commits(enabled, key, r, w) then old(files)[key := Entry(SCHEMA, r)] else old(files)
      ensures failed <==> Fails(enabled, key, r, w)
    {
      KeysAreDigests(key);
      history := history + [Put(key, r, w)];
      assert history[..|history| - 1] == old(history);
      if !enabled { return false; }
      if !ValidKey(key) { return true; }
      if !Cacheable(r) || w.cancelledBefore { return false; }
      if w.writeFails { return true; }
      if w.cancelledAfter { return false; }
      if w.renameFails { return true; }
      files := files[key := Entry(SCHEMA, r)];
      failed := false;
    }
  }

  /** The verdict a backend reaches when nothing disturbs it. */
  type Truth = Execution -> Result

  /** Every usable entry is the stable result of every execution with its key. */
  predicate Sound(d: Digests, jobs: set<Job>, truth: Truth, files: Files) {
    forall j :: j in jobs && KeyOf(d, j) in files && Usable(files[KeyOf(d, j)])
                ==> files[KeyOf(d, j)].result == truth(ExecutionOf(j))
  }

  /** What is assumed of the backend: a result with a stable verdict, of a run that nobody cancelled, is the
      true one. Nothing is assumed of the other verdicts. */
  predicate Honest(truth: Truth, j: Job, r: Result, cancelled: bool) {
    Stable(r.verdict) && !cancelled ==> r == truth(ExecutionOf(j))
  }

  lemma StaysSound(d: Digests, jobs: set<Job>, truth: Truth, files: Files, j: Job, r: Result)
    requires NoCollision(d, jobs) && Sound(d, jobs, truth, files) && j in jobs && r == truth(ExecutionOf(j))
    ensures Sound(d, jobs, truth, files[KeyOf(d, j) := Entry(SCHEMA, r)])
  {
    var next := files[KeyOf(d, j) := Entry(SCHEMA, r)];
    forall k | k in jobs && KeyOf(d, k) in next && Usable(next[KeyOf(d, k)])
      ensures next[KeyOf(d, k)].result == truth(ExecutionOf(k)) {
      if KeyOf(d, k) == KeyOf(d, j) { SameKeySameExecution(d, jobs, j, k); }
    }
  }

  // ---------- One mutant ----------

  /** What one call gives back, besides a hard error. */
  datatype Outcome = Proven | HardError | Ran(result: Result, hit: bool, executed: bool, putFailed: bool)

  /** Looks the mutant up, and runs and stores it when it is not there. The backend's result and the
      conditions of the write are inputs; cancellation is monotone. */
  method RunOneMutant(d: Digests, ghost jobs: set<Job>, ghost truth: Truth, store: Store, j: Job, equivalent: bool, backend: Result,
                      cancelled: bool, w: Weather)
    returns (out: Outcome)
    requires NoCollision(d, jobs) && store.Valid() && Sound(d, jobs, truth, store.files) && j in jobs
    requires Honest(truth, j, backend, cancelled) && (cancelled ==> w.cancelledBefore)
    modifies store`files, store`history
    ensures store.Valid() && Sound(d, jobs, truth, store.files)
    ensures out.Proven? <==> equivalent
    ensures out.HardError? <==> !equivalent && Lookup(old(store.files), store.enabled, KeyOf(d, j)).None?
                                && Sandbox(j.source, j.mut).None?
    ensures out.Ran? ==> out.executed == !out.hit && (out.hit <==> Lookup(old(store.files), store.enabled, KeyOf(d, j)).Some?)
    ensures out.Ran? && out.hit ==> out.result == truth(ExecutionOf(j)) && store.files == old(store.files)
    ensures out.Ran? && !out.hit ==> out.result == backend && (out.putFailed <==> Fails(store.enabled, KeyOf(d, j), backend, w))
    ensures out.Ran? && !out.hit ==> store.history == old(store.history) + [Put(KeyOf(d, j), backend, w)]
    ensures !out.Ran? || backend.verdict !in {Killed, Survived, Invalid} ==> store.files == old(store.files)
    ensures out.Ran? && !out.hit && store.enabled && IsDigest(KeyOf(d, j)) && backend.verdict in {Killed, Survived, Invalid} && w == CLEAR
            ==> Lookup(store.files, store.enabled, KeyOf(d, j)) == Some(backend)
    ensures out.Ran? && !out.hit && Commits(store.enabled, KeyOf(d, j), backend, w) ==> Lookup(store.files, store.enabled, KeyOf(d, j)) == Some(backend)
  {
    if equivalent { return Proven; }
    var key := KeyOf(d, j);
    KeysAreDigests(key);
    LookupRemembers(store.enabled, store.first, store.history, key);
    var got := store.Get(key);
    if got.Some? { return Ran(got.value, true, false, false); }
    if Sandbox(j.source, j.mut).None? { return HardError; }
    if Cacheable(backend) && !cancelled { StaysSound(d, jobs, truth, store.files, j, backend); }
    var failed := store.PutContext(key, backend, w);
    out := Ran(backend, false, true, failed);
  }

  // ---------- Analyses that share the store ----------

  /** Where one worker is in a call. */
  datatype Phase =
    | Idle
    | Running(job: Job)
    | Returned(job: Job, result: Result)
    | Writing(job: Job, result: Result)
    | Done(job: Job, result: Result, hit: bool)

  datatype Worker = Worker(enabled: bool, cancelled: bool, phase: Phase)

  datatype System = System(files: Files, workers: seq<Worker>)

  datatype Step =
    | Start(w: nat, job: Job)
    | Return(w: nat, result: Result)
    | Check(w: nat)
    | Commit(w: nat)
    | WriteFails(w: nat)
    | Cancel(w: nat)
    | Lose(key: string)
    | Spoil(key: string)

  function At(s: System, w: nat, p: Phase): System
    requires w < |s.workers|
  {
    s.(workers := s.workers[w := s.workers[w].(phase := p)])
  }

  predicate Enabled(jobs: set<Job>, truth: Truth, s: System, step: Step) {
    match step
    case Start(w, job) => w < |s.workers| && (s.workers[w].phase.Idle? || s.workers[w].phase.Done?) && job in jobs
    case Return(w, r) =>
      w < |s.workers| && s.workers[w].phase.Running? && Honest(truth, s.workers[w].phase.job, r, s.workers[w].cancelled)
    case Check(w) => w < |s.workers| && s.workers[w].phase.Returned?
    case Commit(w) => w < |s.workers| && s.workers[w].phase.Writing?
    case WriteFails(w) => w < |s.workers| && s.workers[w].phase.Writing?
    case Cancel(w) => w < |s.workers|
    case Lose(_) => true
    case Spoil(_) => true
  }

  function Begin(d: Digests, s: System, w: nat, job: Job): System
    requires w < |s.workers|
  {
    match Lookup(s.files, s.workers[w].enabled, KeyOf(d, job))
    case Some(r) => At(s, w, Done(job, r, true))
    case None => At(s, w, Running(job))
  }

  function Checked(d: Digests, s: System, w: nat): System
    requires w < |s.workers| && s.workers[w].phase.Returned?
  {
    var me := s.workers[w];
    var job, r := me.phase.job, me.phase.result;
    if me.enabled && ValidKey(KeyOf(d, job)) && Cacheable(r) && !me.cancelled then At(s, w, Writing(job, r))
    else At(s, w, Done(job, r, false))
  }

  function Committed(d: Digests, s: System, w: nat): System
    requires w < |s.workers| && s.workers[w].phase.Writing?
  {
    var me := s.workers[w];
    var job, r := me.phase.job, me.phase.result;
    var after := At(s, w, Done(job, r, false));
    if me.cancelled then after else after.(files := s.files[KeyOf(d, job) := Entry(SCHEMA, r)])
  }

  function Do(d: Digests, jobs: set<Job>, truth: Truth, s: System, step: Step): System
    requires Enabled(jobs, truth, s, step)
  {
    match step
    case Start(w, job) => Begin(d, s, w, job)
    case Return(w, r) => At(s, w, Returned(s.workers[w].phase.job, r))
    case Check(w) => Checked(d, s, w)
    case Commit(w) => Committed(d, s, w)
    case WriteFails(w) => At(s, w, Done(s.workers[w].phase.job, s.workers[w].phase.result, false))
    case Cancel(w) => s.(workers := s.workers[w := s.workers[w].(cancelled := true)])
    case Lose(key) => s.(files := s.files - {key})
    case Spoil(key) => s.(files := s.files[key := Unreadable])
  }

  /** A file comes to hold another entry only by the commit of a worker that nobody has cancelled, and then it is
      the result of that worker's run under that worker's key. */
  lemma OnlyCommitsWrite(d: Digests, jobs: set<Job>, truth: Truth, s: System, step: Step, key: string)
    requires Enabled(jobs, truth, s, step)
    ensures var t := Do(d, jobs, truth, s, step);
      key in t.files && t.files[key].Entry? && (key !in s.files || s.files[key] != t.files[key])
      ==> step.Commit? && !s.workers[step.w].cancelled && KeyOf(d, s.workers[step.w].phase.job) == key
          && t.files[key] == Entry(SCHEMA, s.workers[step.w].phase.result)
  {
  }

  ghost predicate Reaches(d: Digests, jobs: set<Job>, truth: Truth, s: System, steps: seq<Step>, t: System)
    decreases |steps|
  {
    if steps == [] then s == t
    else Enabled(jobs, truth, s, steps[0]) && Reaches(d, jobs, truth, Do(d, jobs, truth, s, steps[0]), steps[1..], t)
  }

  /** What is known of a worker's result in each phase. */
  predicate WorkerOk(jobs: set<Job>, truth: Truth, me: Worker) {
    match me.phase
    case Idle => true
    case Running(j) => j in jobs
    case Returned(j, r) => j in jobs && Honest(truth, j, r, me.cancelled)
    case Writing(j, r) => j in jobs && Cacheable(r) && r == truth(ExecutionOf(j))
    case Done(j, r, hit) => hit ==> r == truth(ExecutionOf(j))
  }

  ghost predicate Inv(d: Digests, jobs: set<Job>, truth: Truth, s: System) {
    Sound(d, jobs, truth, s.files) && forall w :: 0 <= w < |s.workers| ==> WorkerOk(jobs, truth, s.workers[w])
  }

  lemma {:induction false} StepKeepsInv(d: Digests, jobs: set<Job>, truth: Truth, s: System, step: Step)
    requires NoCollision(d, jobs) && Inv(d, jobs, truth, s) && Enabled(jobs, truth, s, step)
    ensures Inv(d, jobs, truth, Do(d, jobs, truth, s, step))
  {
    match step {
      case Commit(w) =>
        var me := s.workers[w];
        assert WorkerOk(jobs, truth, me);
        StaysSound(d, jobs, truth, s.files, me.phase.job, me.phase.result);
      case _ =>
    }
  }

  /** In every interleaving every entry is the stable result of its executions, whatever was
      cancelled, failed, lost or transient. */
  lemma {:induction false} RunKeepsInv(d: Digests, jobs: set<Job>, truth: Truth, s: System, steps: seq<Step>, t: System)
    requires NoCollision(d, jobs) && Inv(d, jobs, truth, s) && Reaches(d, jobs, truth, s, steps, t)
    ensures Inv(d, jobs, truth, t)
    decreases |steps|
  {
    if steps != [] {
      StepKeepsInv(d, jobs, truth, s, steps[0]);
      RunKeepsInv(d, jobs, truth, Do(d, jobs, truth, s, steps[0]), steps[1..], t);
    }
  }

  predicate Fresh(s: System) {
    s.files == map[] && forall w :: 0 <= w < |s.workers| ==> s.workers[w].phase.Idle?
  }

  /** The cache is transparent: over any history of analyses that started from an empty store, a hit
      gives what an uncancelled run of the same mutant with a stable verdict would give. */
  lemma CacheIsTransparent(d: Digests, jobs: set<Job>, truth: Truth, s: System, steps: seq<Step>, t: System, w: nat, uncached: Result)
    requires NoCollision(d, jobs) && Fresh(s) && Reaches(d, jobs, truth, s, steps, t)
    requires w < |t.workers| && t.workers[w].phase.Done? && t.workers[w].phase.hit
    requires Stable(uncached.verdict) && Honest(truth, t.workers[w].phase.job, uncached, false)
    ensures t.workers[w].phase.result == uncached
  {
    RunKeepsInv(d, jobs, truth, s, steps, t);
    assert WorkerOk(jobs, truth, t.workers[w]);
  }

  // ---------- The hypotheses can be met ----------

  function Hex(c: char): (key: string)
    requires '0' <= c <= '9'
    ensures ValidKey(key) && key[0] == c
  {
    seq(64, i => c)
  }

  /** Digests with two values, ... */
  function TwoKeys(text: string): Digests {
    Digests((x: Identity) => if x.replacement == text then Hex('0') else Hex('1'), (s: Source) => "", (e: seq<string>) => "",
            (m: MutationRef) => m.replacement)
  }

  /** ... and a job that differs from another in its replacement. */
  function Instead(j: Job, text: string): Job { j.(mut := j.mut.(replacement := text)) }

  lemma {:induction false} KeysApart(j: Job, text: string)
    requires j.mut.replacement != text
    ensures var d := TwoKeys(text); KeyOf(d, j) != KeyOf(d, Instead(j, text)) && ValidKey(KeyOf(d, j))
  {
    assert KeyOf(TwoKeys(text), j)[0] != KeyOf(TwoKeys(text), Instead(j, text))[0];
  }

  lemma {:induction false} JobsApart(j: Job, text: string)
    requires Delimited(j.toolchain) && j.mut.replacement != text
    ensures NoCollision(TwoKeys(text), {j, Instead(j, text)})
  {
    KeysApart(j, text);
    var d := TwoKeys(text);
    forall x, y | x in {j, Instead(j, text)} && y in {j, Instead(j, text)}
      ensures (KeyOf(d, x) == KeyOf(d, y) || d.mutation(x.mut) == d.mutation(y.mut)) ==> x == y {
    }
  }

  lemma {:induction false} TakeSteps(d: Digests, jobs: set<Job>, truth: Truth, s: System, steps: seq<Step>, mid: System, t: System)
    requires steps != [] && Enabled(jobs, truth, s, steps[0]) && Do(d, jobs, truth, s, steps[0]) == mid
    requires Reaches(d, jobs, truth, mid, steps[1..], t)
    ensures Reaches(d, jobs, truth, s, steps, t)
  {
  }

  /** Two analyses that share a store. */
  function Pair(files: Files, p: Phase, q: Phase): System {
    System(files, [Worker(true, false, p), Worker(true, false, q)])
  }

  /** The second analysis looks up what the first one stored. */
  lemma {:induction false} SecondHits(d: Digests, jobs: set<Job>, truth: Truth, job: Job, r: Result)
    requires job in jobs && ValidKey(KeyOf(d, job)) && Cacheable(r) && r == truth(ExecutionOf(job))
    ensures Reaches(d, jobs, truth, Pair(map[], Writing(job, r), Idle), [Commit(0), Start(1, job)],
                    Pair(map[KeyOf(d, job) := Entry(SCHEMA, r)], Done(job, r, false), Done(job, r, true)))
  {
    var files: Files := map[KeyOf(d, job) := Entry(SCHEMA, r)];
    var s, t := Pair(files, Done(job, r, false), Idle), Pair(files, Done(job, r, false), Done(job, r, true));
    assert [Commit(0), Start(1, job)][1..] == [Start(1, job)] && [Start(1, job)][1..] == [];
    TakeSteps(d, jobs, truth, s, [Start(1, job)], t, t);
    TakeSteps(d, jobs, truth, Pair(map[], Writing(job, r), Idle), [Commit(0), Start(1, job)], s, t);
  }

  /** The hypotheses of the theorems can be met: for every job there are digests, another job and a run in
      which one analysis finds what another stored. */
  lemma {:induction false} HitsHappen(truth: Truth, job: Job, text: string)
    returns (d: Digests, jobs: set<Job>, s: System, steps: seq<Step>, t: System)
    requires Delimited(job.toolchain) && job.mut.replacement != text && Cacheable(truth(ExecutionOf(job)))
    ensures NoCollision(d, jobs) && |jobs| == 2 && job in jobs && Fresh(s) && Reaches(d, jobs, truth, s, steps, t)
    ensures |t.workers| == 2 && t.workers[1].phase.Done? && t.workers[1].phase.hit && t.workers[1].phase.job == job
  {
    d, jobs := TwoKeys(text), {job, Instead(job, text)};
    KeysApart(job, text);
    JobsApart(job, text);
    var r := truth(ExecutionOf(job));
    SecondHits(d, jobs, truth, job, r);
    t := Pair(map[KeyOf(d, job) := Entry(SCHEMA, r)], Done(job, r, false), Done(job, r, true));
    var last := [Commit(0), Start(1, job)];
    var checking, returning := [Check(0)] + last, [Return(0, r)] + ([Check(0)] + last);
    TakeSteps(d, jobs, truth, Pair(map[], Returned(job, r), Idle), checking, Pair(map[], Writing(job, r), Idle), t);
    TakeSteps(d, jobs, truth, Pair(map[], Running(job), Idle), returning, Pair(map[], Returned(job, r), Idle), t);
    s, steps := Pair(map[], Idle, Idle), [Start(0, job)] + returning;
    TakeSteps(d, jobs, truth, s, steps, Pair(map[], Running(job), Idle), t);
  }
}
