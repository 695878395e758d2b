/**
 * The two string conversions the grid performs: a width in pixels written as
 * a decimal number (the `${width}px` template) and a list of tokens joined by
 * a separator (`Array.prototype.join`). Each comes with the inverse that shows
 * no information is lost.
 */
module Text {

  predicate IsDigit(c: char) {
    '0' <= c <= '9'
  }

  predicate AllDigits(s: string) {
    forall i :: 0 <= i < |s| ==> IsDigit(s[i])
  }

  function DigitChar(d: nat): (c: char)
    requires d < 10
    ensures IsDigit(c)
  {
    (d + '0' as int) as char
  }

  function DigitValue(c: char): (d: nat)
    requires IsDigit(c)
    ensures d < 10
  {
    c as int - '0' as int
  }

  /** The decimal numeral of `n`, most significant digit first, without leading zeros. */
  function Decimal(n: nat): (s: string)
    ensures |s| >= 1 && AllDigits(s)
    ensures s[0] == '0' ==> n == 0
    decreases n
  {
    if n < 10 then [DigitChar(n)] else Decimal(n / 10) + [DigitChar(n % 10)]
  }

  /** The number a string of decimal digits denotes. */
  function DecimalValue(s: string): nat
    requires AllDigits(s)
    decreases |s|
  {
    if s == [] then 0 else DecimalValue(s[..|s| - 1]) * 10 + DigitValue(s[|s| - 1])
  }

  lemma {:induction false} DecimalRoundTrip(n: nat)
    ensures DecimalValue(Decimal(n)) == n
    decreases n
  {
    if n >= 10 {
      var s := Decimal(n);
      assert s[..|s| - 1] == Decimal(n / 10);
      DecimalRoundTrip(n / 10);
    }
  }

  /** `ws.join(sep)`: the tokens in order, with one separator between neighbours. */
  function Join(ws: seq<string>, sep: char): string
  {
    if ws == [] then "" else if |ws| == 1 then ws[0] else ws[0] + [sep] + Join(ws[1..], sep)
  }

  /** The position of the first `c` in `s`, or `|s|` when there is none. */
  function IndexOf(s: string, c: char): (k: nat)
    ensures k <= |s|
    ensures forall i :: 0 <= i < k ==> s[i] != c
    ensures k < |s| ==> s[k] == c
    decreases |s|
  {
    if s == [] then 0 else if s[0] == c then 0 else 1 + IndexOf(s[1..], c)
  }

  /** Splits `s` at every `sep`; the reference inverse of `Join` for non-empty tokens. */
  function Split(s: string, sep: char): seq<string>
    decreases |s|
  {
    if s == [] then []
    else
      var k := IndexOf(s, sep);
      if k == |s| then [s] else [s[..k]] + Split(s[k + 1..], sep)
  }

  /** Tokens that `Join` keeps apart: none is empty and none holds the separator. */
  predicate Separable(ws: seq<string>, sep: char) {
    forall i :: 0 <= i < |ws| ==> ws[i] != "" && sep !in ws[i]
  }

  lemma IndexOfPastToken(t: string, sep: char, rest: string)
    requires sep !in t
    ensures IndexOf(t + [sep] + rest, sep) == |t|
  {
    var s := t + [sep] + rest;
    assert s[|t|] == sep;
    assert forall i :: 0 <= i < |t| ==> s[i] == t[i];
  }

  lemma {:induction false} SplitJoin(ws: seq<string>, sep: char)
    requires Separable(ws, sep)
    ensures Split(Join(ws, sep), sep) == ws
    decreases |ws|
  {
    if |ws| == 1 {
      assert IndexOf(ws[0], sep) == |ws[0]|;
    } else if |ws| > 1 {
      var t, rest := ws[0], Join(ws[1..], sep);
      var s := t + [sep] + rest;
      IndexOfPastToken(t, sep, rest);
      assert s[..|t|] == t;
      assert s[|t| + 1..] == rest;
      assert Separable(ws[1..], sep) by {
        forall i | 0 <= i < |ws| - 1 ensures ws[1..][i] != "" && sep !in ws[1..][i] {
          assert ws[1..][i] == ws[i + 1];
        }
      }
      SplitJoin(ws[1..], sep);
      assert [t] + ws[1..] == ws;
    }
  }
}
