/**
 * The JavaScript string operations the import code relies on:
 * `indexOf`, `split` with a one-character separator, `join`, and the
 * decimal rendering of a non-negative integer in a template literal.
 */
module JsStrings {

  /** `tok` occurs in `s` starting at index `j`. */
  predicate OccursAt(s: string, tok: string, j: int)
  {
    0 <= j && j + |tok| <= |s| && s[j..j + |tok|] == tok
  }

  /** `s` begins with `p` (`s.startsWith(p)`). */
  predicate StartsWith(s: string, p: string)
  {
    |p| <= |s| && s[..|p|] == p
  }

  lemma OccursAtShift(s: string, tok: string, j: int)
    requires |s| > 0 && j >= 0
    ensures OccursAt(s, tok, j + 1) <==> OccursAt(s[1..], tok, j)
  {
    if 0 <= j && j + |tok| <= |s| - 1 {
      assert s[1..][j..j + |tok|] == s[j + 1..j + 1 + |tok|];
    }
  }

  lemma OccursAtChar(s: string, c: char, j: int)
    ensures OccursAt(s, [c], j) <==> 0 <= j < |s| && s[j] == c
  {
    if 0 <= j < |s| {
      assert s[j..j + 1] == [s[j]];
    }
  }

  /** `s.indexOf(tok)`: the first index at which `tok` occurs, or -1 when it does not occur. */
  function IndexOf(s: string, tok: string): (r: int)
    ensures -1 <= r <= |s|
    ensures r >= 0 ==> OccursAt(s, tok, r)
    ensures forall j :: (r < 0 || j < r) ==> !OccursAt(s, tok, j)
    decreases |s|
  {
    if |s| < |tok| then -1
    else if s[..|tok|] == tok then 0
    else
      var k := IndexOf(s[1..], tok);
      assert forall j :: j >= 0 ==> (OccursAt(s, tok, j + 1) <==> OccursAt(s[1..], tok, j)) by {
        forall j | j >= 0 { OccursAtShift(s, tok, j); }
      }
      assert !OccursAt(s, tok, 0);
      assert forall j :: OccursAt(s, tok, j) ==> j == 0 || OccursAt(s[1..], tok, j - 1);
      if k < 0 then -1 else k + 1
  }

  /** `parts.join(sep)`. */
  function Join(parts: seq<string>, sep: string): string
  {
    if |parts| == 0 then ""
    else if |parts| == 1 then parts[0]
    else parts[0] + sep + Join(parts[1..], sep)
  }

  /**
   * `s.split(sep)` for a one-character separator: the pieces between
   * consecutive separators. The empty string splits into `[""]`.
   * Joining the pieces with the separator gives `s` back, and no piece
   * contains the separator.
   */
  function Split(s: string, sep: char): (parts: seq<string>)
    ensures |parts| >= 1
    ensures forall k :: 0 <= k < |parts| ==> sep !in parts[k]
    ensures Join(parts, [sep]) == s
    decreases |s|
  {
    var i := IndexOf(s, [sep]);
    forall j { OccursAtChar(s, sep, j); }
    if i < 0 then
      [s]
    else
      var rest := Split(s[i + 1..], sep);
      assert sep !in s[..i] by {
        forall j | 0 <= j < i ensures s[..i][j] != sep { assert !OccursAt(s, [sep], j); }
      }
      assert ([s[..i]] + rest)[1..] == rest;
      assert s == s[..i] + [sep] + s[i + 1..];
      [s[..i]] + rest
  }

  /** The character of a decimal digit. */
  function DigitChar(d: nat): (c: char)
    requires d < 10
    ensures '0' <= c <= '9'
  {
    ('0' as int + d) as char
  }

  predicate IsDigits(s: string)
  {
    forall i :: 0 <= i < |s| ==> '0' <= s[i] <= '9'
  }

  /** How a non-negative integer renders in a template literal (`${n}`). */
  function Decimal(n: nat): (s: string)
    ensures |s| >= 1 && IsDigits(s)
    ensures s[0] == '0' ==> n == 0
  {
    if n < 10 then [DigitChar(n)] else Decimal(n / 10) + [DigitChar(n % 10)]
  }

  /** The value of a string of decimal digits, read most significant first. */
  function DecimalValue(s: string): nat
    requires IsDigits(s)
  {
    if s == [] then 0 else DecimalValue(s[..|s| - 1]) * 10 + (s[|s| - 1] as int - '0' as int)
  }

  /** Reading back the digits of `Decimal(n)` gives `n`: the rendering loses nothing. */
  lemma {:induction false} DecimalRoundTrip(n: nat)
    ensures DecimalValue(Decimal(n)) == n
  {
    if n >= 10 {
      DecimalRoundTrip(n / 10);
      var s := Decimal(n);
      assert s[..|s| - 1] == Decimal(n / 10);
    }
  }

  /** How an integer renders in a template literal. */
  function IntToString(n: int): string
  {
    if n < 0 then "-" + Decimal(-n) else Decimal(n)
  }
}
