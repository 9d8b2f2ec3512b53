/** Decimal numerals. */
module Decimal {
  import opened Base

  function Digit(d: nat): char
    requires d < 10
  {
    '0' + d as char
  }

  predicate IsDigit(c: char) { '0' <= c <= '9' }

  function Print(n: nat): (s: string)
    ensures s != "" && forall i :: 0 <= i < |s| ==> IsDigit(s[i])
  {
    if n < 10 then [Digit(n)] else Print(n / 10) + [Digit(n % 10)]
  }

  /** The value of a nonempty numeral. */
  function Parse(s: string): (r: Option<nat>)
    ensures r.Some? ==> s != "" && forall i :: 0 <= i < |s| ==> IsDigit(s[i])
  {
    if s == "" || !IsDigit(s[|s| - 1]) then None
    else
      var d := (s[|s| - 1] - '0') as nat;
      if |s| == 1 then Some(d)
      else match Parse(s[..|s| - 1])
        case Some(v) => assert s == s[..|s| - 1] + [s[|s| - 1]]; Some(10 * v + d)
        case None => None
  }

  lemma {:induction false} ParsePrint(n: nat)
    ensures Parse(Print(n)) == Some(n)
    decreases n
  {
    if n >= 10 {
      ParsePrint(n / 10);
      var s := Print(n);
      assert s[..|s| - 1] == Print(n / 10);
    }
  }

  // ---------- Numerals by their places ----------

  function Pow10(k: nat): nat { if k == 0 then 1 else 10 * Pow10(k - 1) }

  function DigitValue(c: char): nat { if IsDigit(c) then (c - '0') as nat else 0 }

  /** Every digit times ten to the number of digits behind it. */
  function Places(s: string): nat {
    if s == "" then 0 else DigitValue(s[0]) * Pow10(|s| - 1) + Places(s[1..])
  }

  lemma {:induction false} PlacesSnoc(s: string, c: char)
    ensures Places(s + [c]) == 10 * Places(s) + DigitValue(c)
    decreases |s|
  {
    if s == "" {
      assert (s + [c])[1..] == "";
      assert Places(s + [c]) == DigitValue(c) * Pow10(0);
    } else {
      assert (s + [c])[1..] == s[1..] + [c];
      PlacesSnoc(s[1..], c);
      Shift(DigitValue(s[0]), |s| - 1);
    }
  }

  lemma Shift(d: nat, k: nat)
    ensures d * Pow10(k + 1) == 10 * (d * Pow10(k))
  {
  }

  /** The value of a numeral is that of its places, and nothing else has a value. */
  lemma {:induction false} ParseIsPlaces(s: string)
    ensures Parse(s) == if s != "" && (forall i :: 0 <= i < |s| ==> IsDigit(s[i])) then Some(Places(s)) else None
    decreases |s|
  {
    if s != "" {
      var n := |s| - 1;
      assert s == s[..n] + [s[n]];
      PlacesSnoc(s[..n], s[n]);
      ParseIsPlaces(s[..n]);
    }
  }

  lemma {:induction false} PlacesPrint(n: nat)
    ensures Places(Print(n)) == n
  {
    ParsePrint(n);
    ParseIsPlaces(Print(n));
  }
}
