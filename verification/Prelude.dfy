// Small shared vocabulary: optional values, case-insensitive addresses and base-unit amounts.
module Prelude {
  datatype Option<+T> = None | Some(value: T)

  datatype Result<+T> = Ok(value: T) | Err(error: string)

  /** ASCII lower-casing, as applied to addresses and hashes before they are compared. */
  function Lower(s: string): string {
    seq(|s|, i requires 0 <= i < |s| => if 'A' <= s[i] <= 'Z' then s[i] + 32 as char else s[i])
  }

  predicate SameText(a: string, b: string) {
    Lower(a) == Lower(b)
  }

  /** The text that parseBaseUnits accepts: one or more decimal digits. */
  predicate IsUnits(s: string) {
    s != "" && forall i :: 0 <= i < |s| ==> '0' <= s[i] <= '9'
  }

  function DigitsValue(s: string): nat {
    if s == "" then 0
    else
      var c := s[|s| - 1];
      10 * DigitsValue(s[..|s| - 1]) + if '0' <= c <= '9' then c as nat - '0' as nat else 0
  }

  /** The amount a base-unit string denotes; 0 for text that does not parse. */
  function Units(s: string): nat {
    if IsUnits(s) then DigitsValue(s) else 0
  }

  predicate PositiveUnits(s: string) {
    IsUnits(s) && Units(s) > 0
  }

  ghost predicate NoDuplicates<T(!new)>(s: seq<T>) {
    forall i, j :: 0 <= i < j < |s| ==> s[i] != s[j]
  }

  function Filter<T(!new)>(s: seq<T>, keep: T -> bool): (r: seq<T>)
    ensures forall x :: x in r <==> x in s && keep(x)
    ensures |r| <= |s|
  {
    if s == [] then [] else (if keep(s[0]) then [s[0]] else []) + Filter(s[1..], keep)
  }

  function Sum<T>(s: seq<T>, weight: T -> nat): nat {
    if s == [] then 0 else weight(s[0]) + Sum(s[1..], weight)
  }

  /** A natural number in decimal. */
  function DigitText(n: nat): string {
    if n < 10 then [(n + '0' as nat) as char] else DigitText(n / 10) + [(n % 10 + '0' as nat) as char]
  }

  lemma {:induction false} DigitTextInjective(m: nat, n: nat)
    requires DigitText(m) == DigitText(n)
    ensures m == n
  {
    var a, b := DigitText(m), DigitText(n);
    assert a[|a| - 1] == b[|b| - 1];
    if m >= 10 && n >= 10 {
      assert DigitText(m / 10) == a[..|a| - 1] && DigitText(n / 10) == b[..|b| - 1];
      DigitTextInjective(m / 10, n / 10);
    } else {
      DigitTextLength(m);
      DigitTextLength(n);
    }
  }

  lemma DigitTextLength(n: nat)
    ensures |DigitText(n)| == 1 <==> n < 10
  {
  }

  lemma {:induction false} DigitTextDigits(n: nat)
    ensures DigitText(n) != "" && forall i :: 0 <= i < |DigitText(n)| ==> '0' <= DigitText(n)[i] <= '9'
  {
    if n >= 10 { DigitTextDigits(n / 10); }
  }
}
