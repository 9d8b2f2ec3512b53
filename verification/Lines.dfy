/** Texts as lists of lines that keep their newline. */
module Lines {
  import opened Base

  const NL: char := '\n'

  // ---------- Characters ----------

  predicate IsSpace(c: char) {
    || '\t' <= c <= '\r' || c == ' ' || c as int in {0x85, 0xA0, 0x1680, 0x2028, 0x2029, 0x202F, 0x205F, 0x3000}
    || 0x2000 <= c as int <= 0x200A
  }

  predicate Blank(data: string) { forall i :: 0 <= i < |data| ==> IsSpace(data[i]) }

  /** The text before and after the first occurrence of c. */
  function Around(s: string, c: char): (r: Option<(string, string)>)
    ensures r.Some? ==> s == r.value.0 + [c] + r.value.1 && c !in r.value.0
    ensures r.None? ==> c !in s
  {
    if s == "" then None
    else if s[0] == c then Some(("", s[1..]))
    else match Around(s[1..], c) case Some(p) => Some(([s[0]] + p.0, p.1)) case None => None
  }

  predicate HasPrefix(s: string, p: string) { |p| <= |s| && s[..|p|] == p }

  lemma {:induction false} AroundAt(a: string, c: char, b: string)
    requires c !in a
    ensures Around(a + [c] + b, c) == Some((a, b))
    decreases |a|
  {
    var s := a + [c] + b;
    if a != "" {
      assert s[1..] == a[1..] + [c] + b;
      AroundAt(a[1..], c, b);
      assert a == [a[0]] + a[1..];
    } else {
      assert s[0] == c && s[1..] == b;
    }
  }

  /** The pieces between the separators; there is always one. */
  function Split(s: string, c: char): (r: seq<string>)
    ensures r != []
    decreases |s|
  {
    match Around(s, c)
    case None => [s]
    case Some(p) => [p.0] + Split(p.1, c)
  }

  function Join(ps: seq<string>, c: char): string {
    if ps == [] then "" else if |ps| == 1 then ps[0] else ps[0] + [c] + Join(ps[1..], c)
  }

  /** The first piece of a text. */
  lemma SplitAt(a: string, c: char, b: string)
    requires c !in a
    ensures Split(a + [c] + b, c) == [a] + Split(b, c)
  {
    AroundAt(a, c, b);
  }

  // ---------- Lines ----------

  /** A line: not empty, with a newline at most at its end. */
  predicate IsLine(l: string) {
    l != "" && forall i :: 0 <= i < |l| - 1 ==> l[i] != NL
  }

  predicate Ended(l: string) { l != "" && l[|l| - 1] == NL }

  lemma Chomped(l: string)
    requires IsLine(l) && Ended(l)
    ensures NL !in l[..|l| - 1] && l == l[..|l| - 1] + "\n"
  {
  }

  lemma Unbroken(l: string)
    requires IsLine(l) && !Ended(l)
    ensures NL !in l
  {
    forall i | 0 <= i < |l| ensures l[i] != NL {}
  }

  /** The lines of one text: only the last may lack its newline. */
  ghost predicate Wf(ls: seq<string>) {
    && (forall i :: 0 <= i < |ls| ==> IsLine(ls[i]))
    && (forall i :: 0 <= i < |ls| - 1 ==> Ended(ls[i]))
  }

  function Flatten(ls: seq<string>): string {
    if ls == [] then "" else ls[0] + Flatten(ls[1..])
  }

  lemma {:induction false} FlattenConcat(a: seq<string>, b: seq<string>)
    ensures Flatten(a + b) == Flatten(a) + Flatten(b)
    decreases |a|
  {
    if a == [] {
      assert a + b == b;
    } else {
      assert (a + b)[1..] == a[1..] + b;
      FlattenConcat(a[1..], b);
    }
  }

  lemma FlattenSnoc(a: seq<string>, l: string)
    ensures Flatten(a + [l]) == Flatten(a) + l
  {
    FlattenConcat(a, [l]);
    assert [l][1..] == [];
  }

  /** The first newline. */
  function IndexNL(s: string): (r: Option<nat>)
    ensures r.Some? ==> r.value < |s| && s[r.value] == NL && NL !in s[..r.value]
    ensures r.None? ==> NL !in s
  {
    if s == "" then None
    else if s[0] == NL then Some(0)
    else match IndexNL(s[1..])
      case Some(n) => assert s[..n + 1] == [s[0]] + s[1..][..n]; Some(n + 1)
      case None => assert s == [s[0]] + s[1..]; None
  }

  /** Splits a block into its lines. */
  function LinesOf(s: string): seq<string>
    decreases |s|
  {
    if s == "" then []
    else match IndexNL(s)
      case None => [s]
      case Some(n) => [s[..n + 1]] + LinesOf(s[n + 1..])
  }

  lemma OneMore(l: string, rest: seq<string>)
    requires IsLine(l) && Ended(l) && Wf(rest)
    ensures Wf([l] + rest) && Flatten([l] + rest) == l + Flatten(rest)
  {
    assert ([l] + rest)[1..] == rest;
  }

  lemma UpToBreak(s: string, n: nat)
    requires IndexNL(s) == Some(n)
    ensures IsLine(s[..n + 1]) && Ended(s[..n + 1]) && s == s[..n + 1] + s[n + 1..]
  {
    forall i | 0 <= i < n ensures s[i] != NL { assert s[i] == s[..n][i]; }
  }

  lemma Unended(s: string)
    requires s != "" && NL !in s
    ensures Wf([s]) && Flatten([s]) == s
  {
    assert [s][1..] == [];
    forall i | 0 <= i < |s| ensures s[i] != NL { assert s[i] in s; }
  }

  lemma {:induction false} LinesOfText(s: string)
    ensures Wf(LinesOf(s)) && Flatten(LinesOf(s)) == s
    decreases |s|
  {
    if s != "" {
      match IndexNL(s)
      case None => Unended(s);
      case Some(n) =>
        LinesOfText(s[n + 1..]);
        UpToBreak(s, n);
        OneMore(s[..n + 1], LinesOf(s[n + 1..]));
    }
  }

  lemma {:induction false} LinesOfFlat(ls: seq<string>)
    requires Wf(ls)
    ensures LinesOf(Flatten(ls)) == ls
    decreases |ls|
  {
    if ls != [] {
      var l, s := ls[0], Flatten(ls);
      assert Wf(ls[1..]) by { forall i | 0 <= i < |ls[1..]| ensures IsLine(ls[1..][i]) { assert IsLine(ls[i + 1]); }
                              forall i | 0 <= i < |ls[1..]| - 1 ensures Ended(ls[1..][i]) { assert Ended(ls[i + 1]); } }
      LinesOfFlat(ls[1..]);
      if Ended(l) {
        FirstBreak(l, Flatten(ls[1..]));
        assert s[..|l|] == l && s[|l|..] == Flatten(ls[1..]);
        assert ls == [l] + ls[1..];
      } else {
        assert |ls| == 1 && ls[1..] == [] && s == l;
        forall i | 0 <= i < |l| ensures l[i] != NL {}
        assert ls == [l];
      }
    }
  }

  lemma FirstBreak(l: string, rest: string)
    requires IsLine(l) && Ended(l)
    ensures IndexNL(l + rest) == Some(|l| - 1)
  {
    var s := l + rest;
    forall i | 0 <= i < |l| - 1 ensures s[i] != NL {}
    assert s[|l| - 1] == NL && NL in s;
    var n := IndexNL(s).value;
    assert forall i :: 0 <= i < n ==> s[..n][i] == s[i];
  }

  /** There is one way to cut a text into lines. */
  lemma LinesUnique(a: seq<string>, b: seq<string>)
    requires Wf(a) && Wf(b) && Flatten(a) == Flatten(b)
    ensures a == b
  {
    LinesOfFlat(a);
    LinesOfFlat(b);
  }

  lemma WfPart(ls: seq<string>, i: nat, j: nat)
    requires Wf(ls) && i <= j <= |ls|
    ensures Wf(ls[i..j])
  {
    forall k | 0 <= k < j - i - 1 ensures Ended(ls[i..j][k]) { assert Ended(ls[i + k]); }
  }

  /** Lists of lines join to lines when the first part is ended or nothing follows. */
  lemma WfJoin(a: seq<string>, b: seq<string>)
    requires Wf(a) && Wf(b) && (a == [] || b == [] || Ended(a[|a| - 1]))
    ensures Wf(a + b)
  {
    var c := a + b;
    forall k | 0 <= k < |c| - 1 ensures Ended(c[k]) {
      if k < |a| - 1 { assert Ended(a[k]); } else if k >= |a| { assert Ended(b[k - |a|]); }
    }
  }

  lemma NextLine(out: seq<string>, rest: string, n: nat)
    requires IndexNL(rest) == Some(n)
    ensures out + LinesOf(rest) == (out + [rest[..n + 1]]) + LinesOf(rest[n + 1..])
  {
  }

  lemma LastLine(out: seq<string>, rest: string)
    requires rest != "" && IndexNL(rest) == None
    ensures out + LinesOf(rest) == (out + [rest]) + LinesOf("")
  {
  }

  /** The loop that splits a block. */
  method DiffLines(block: string) returns (out: seq<string>)
    ensures out == LinesOf(block)
  {
    out := [];
    var rest := block;
    while rest != ""
      invariant out + LinesOf(rest) == LinesOf(block)
      decreases |rest|
    {
      match IndexNL(rest) {
        case None =>
          LastLine(out, rest);
          out := out + [rest];
          rest := "";
        case Some(n) =>
          NextLine(out, rest, n);
          out := out + [rest[..n + 1]];
          rest := rest[n + 1..];
      }
    }
  }

  // ---------- Offsets of lines ----------

  function Off(ls: seq<string>, i: nat): nat
    requires i <= |ls|
  {
    |Flatten(ls[..i])|
  }

  function Offsets(ls: seq<string>): (r: seq<nat>)
    ensures |r| == |ls|
    ensures forall i :: 0 <= i < |ls| ==> r[i] == Off(ls, i)
  {
    seq(|ls|, i requires 0 <= i < |ls| => Off(ls, i))
  }

  /** One more character starts a new line ... */
  lemma SnocNew(s: string, c: char)
    requires s == "" || Ended(LinesOf(s)[|LinesOf(s)| - 1])
    ensures LinesOf(s + [c]) == LinesOf(s) + [[c]]
  {
    LinesOfText(s);
    LinesOfText(s + [c]);
    WfJoin(LinesOf(s), [[c]]);
    FlattenSnoc(LinesOf(s), [c]);
    LinesUnique(LinesOf(s + [c]), LinesOf(s) + [[c]]);
  }

  /** ... or extends the last one. */
  lemma SnocSame(s: string, c: char)
    requires LinesOf(s) != [] && !Ended(LinesOf(s)[|LinesOf(s)| - 1])
    ensures var ls := LinesOf(s); var n := |ls| - 1;
            LinesOf(s + [c]) == ls[..n] + [ls[n] + [c]]
  {
    LinesOfText(s);
    LinesOfText(s + [c]);
    var ls := LinesOf(s);
    var n := |ls| - 1;
    assert ls == ls[..n] + [ls[n]];
    LastGrows(ls[..n], ls[n], c);
    LinesUnique(LinesOf(s + [c]), ls[..n] + [ls[n] + [c]]);
  }

  lemma LastGrows(front: seq<string>, l: string, c: char)
    requires Wf(front + [l]) && !Ended(l)
    ensures Wf(front + [l + [c]]) && Flatten(front + [l + [c]]) == Flatten(front + [l]) + [c]
  {
    var ls := front + [l];
    assert IsLine(ls[|front|]) && ls[..|front|] == front;
    WfPart(ls, 0, |front|);
    LongerLine(l, c);
    if front != [] { assert Ended(ls[|front| - 1]); }
    WfJoin(front, [l + [c]]);
    FlattenSnoc(front, l);
    FlattenSnoc(front, l + [c]);
  }

  lemma LongerLine(l: string, c: char)
    requires IsLine(l) && !Ended(l)
    ensures IsLine(l + [c])
  {
    forall i | 0 <= i < |l| ensures (l + [c])[i] != NL {
      if i < |l| - 1 { assert l[i] != NL; }
    }
  }

  lemma LastEnded(s: string)
    requires s != ""
    ensures LinesOf(s) != [] && (Ended(LinesOf(s)[|LinesOf(s)| - 1]) <==> s[|s| - 1] == NL)
  {
    LinesOfText(s);
    var ls := LinesOf(s);
    var n := |ls| - 1;
    assert ls == ls[..n] + [ls[n]];
    FlattenSnoc(ls[..n], ls[n]);
  }

  lemma OffsetsNew(ls: seq<string>, l: string)
    ensures Offsets(ls + [l]) == Offsets(ls) + [|Flatten(ls)|]
  {
    var next := ls + [l];
    forall i | 0 <= i <= |ls| ensures next[..i] == ls[..i] {}
    assert ls[..|ls|] == ls;
  }

  lemma OffsetsSame(front: seq<string>, l: string, k: string)
    ensures Offsets(front + [k]) == Offsets(front + [l])
  {
    OffsetsNew(front, l);
    OffsetsNew(front, k);
  }

  lemma {:induction false} OffsetsGrow(s: string, c: char)
    requires s != ""
    ensures s[|s| - 1] == NL ==> Offsets(LinesOf(s + [c])) == Offsets(LinesOf(s)) + [|s|]
    ensures s[|s| - 1] != NL ==> Offsets(LinesOf(s + [c])) == Offsets(LinesOf(s))
  {
    LastEnded(s);
    var ls := LinesOf(s);
    if s[|s| - 1] == NL {
      LinesOfText(s);
      SnocNew(s, c);
      OffsetsNew(ls, [c]);
    } else {
      SnocSame(s, c);
      SplitLast(ls, c);
    }
  }

  lemma SplitLast(ls: seq<string>, c: char)
    requires ls != []
    ensures var n := |ls| - 1; Offsets(ls[..n] + [ls[n] + [c]]) == Offsets(ls)
  {
    var n := |ls| - 1;
    assert ls == ls[..n] + [ls[n]];
    OffsetsSame(ls[..n], ls[n], ls[n] + [c]);
  }

  /** The offsets at which lines begin. */
  method NewLineIndex(src: string) returns (offsets: seq<nat>)
    ensures src != "" ==> offsets == Offsets(LinesOf(src))
    ensures src == "" ==> offsets == [0]
  {
    offsets := [0];
    if src != "" { FirstOffset(src[..1]); }
    for i := 0 to |src|
      invariant src != "" ==> offsets == Offsets(LinesOf(src[..if i < |src| then i + 1 else i]))
      invariant src == "" ==> offsets == [0]
    {
      if i + 1 < |src| {
        assert src[..i + 2] == src[..i + 1] + [src[i + 1]];
        OffsetsGrow(src[..i + 1], src[i + 1]);
      }
      if src[i] == NL && i + 1 < |src| {
        offsets := offsets + [i + 1];
      }
    }
    assert src[..|src|] == src;
  }

  lemma FirstOffset(s: string)
    requires |s| == 1
    ensures Offsets(LinesOf(s)) == [0]
  {
    if s[0] == NL { assert s[..1] == s && s[1..] == ""; }
    assert LinesOf(s) == [s];
  }

  lemma {:induction false} OffMonotone(ls: seq<string>, i: nat, j: nat)
    requires Wf(ls) && i <= j <= |ls|
    ensures Off(ls, i) + (j - i) <= Off(ls, j) <= |Flatten(ls)|
    ensures Flatten(ls)[Off(ls, i)..Off(ls, j)] == Flatten(ls[i..j])
    ensures Flatten(ls)[..Off(ls, i)] == Flatten(ls[..i]) && Flatten(ls)[Off(ls, j)..] == Flatten(ls[j..])
  {
    assert ls[..j] == ls[..i] + ls[i..j] && ls == ls[..j] + ls[j..];
    FlattenConcat(ls[..i], ls[i..j]);
    FlattenConcat(ls[..j], ls[j..]);
    WfPart(ls, i, j);
    LongEnough(ls[i..j]);
  }

  lemma {:induction false} LongEnough(ls: seq<string>)
    requires forall i :: 0 <= i < |ls| ==> ls[i] != ""
    ensures |Flatten(ls)| >= |ls|
    decreases |ls|
  {
    if ls != [] { LongEnough(ls[1..]); }
  }

  /** The line an offset falls on. */
  ghost predicate OnLine(ls: seq<string>, offset: nat, i: nat) {
    i < |ls| && Off(ls, i) <= offset < Off(ls, i + 1)
  }

  /** Binary search for the last line that begins at or before the offset. */
  method Containing(l: seq<nat>, offset: nat) returns (i: nat)
    requires l != [] && l[0] == 0 && forall a, b :: 0 <= a < b < |l| ==> l[a] < l[b]
    ensures i < |l| && l[i] <= offset && (i + 1 < |l| ==> offset < l[i + 1])
  {
    var lo, hi := 0, |l|;
    while lo < hi
      invariant lo <= hi <= |l|
      invariant forall k :: 0 <= k < lo ==> l[k] <= offset
      invariant forall k :: hi <= k < |l| ==> l[k] > offset
    {
      var mid := (lo + hi) / 2;
      if l[mid] > offset {
        hi := mid;
      } else {
        lo := mid + 1;
      }
    }
    i := if lo == 0 then 0 else lo - 1;
  }
}
