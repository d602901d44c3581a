/** Values as the browser scripts see them: JSON identifiers that are either
    numbers or strings, JavaScript's loose equality between them, and the few
    string operations the scripts rely on (String(), Number(), join,
    toLowerCase). */
module JsValues {

  datatype Option<+T> = None | Some(value: T)

  datatype Result<+T, +E> = Ok(value: T) | Err(error: E)

  /** A floor or room number as it arrives in JSON: a number or a string. */
  datatype Ident = Num(n: int) | Str(s: string)

  /** JavaScript truthiness of a string: only the empty string is falsy. */
  predicate Truthy(s: string) {
    s != ""
  }

  predicate IsDigit(c: char) {
    '0' <= c <= '9'
  }

  predicate AllDigits(s: string) {
    forall i :: 0 <= i < |s| ==> IsDigit(s[i])
  }

  function DigitChar(d: nat): char
    requires d < 10
  {
    (48 + d) as char
  }

  /** Decimal rendering of a natural number, as String(n) writes it. */
  function NatToString(n: nat): string
  {
    if n < 10 then [DigitChar(n)] else NatToString(n / 10) + [DigitChar(n % 10)]
  }

  function IntToString(i: int): string {
    if i < 0 then "-" + NatToString(-i) else NatToString(i)
  }

  /** String(x): what an identifier becomes when it is concatenated with a
      string or used as a property name. */
  function ToString(x: Ident): string {
    match x
    case Num(n) => IntToString(n)
    case Str(s) => s
  }

  function DigitsValue(s: string): nat
    requires AllDigits(s)
  {
    if s == [] then 0 else 10 * DigitsValue(s[..|s| - 1]) + ((s[|s| - 1] as int) - 48)
  }

  /** Number(s) for the strings this model distinguishes: the empty string
      (which is 0), and decimal digits with an optional leading minus sign.
      Every other string is NaN, written None, and loosely equals nothing. */
  function StringToNumber(s: string): Option<int> {
    if s == "" then Some(0)
    else if AllDigits(s) then Some(DigitsValue(s))
    else if s[0] == '-' && |s| > 1 && AllDigits(s[1..]) then Some(0 - DigitsValue(s[1..]) as int)
    else None
  }

  lemma {:induction false} NatToStringDigits(n: nat)
    ensures NatToString(n) != [] && AllDigits(NatToString(n))
    ensures DigitsValue(NatToString(n)) == n
  {
    if n >= 10 {
      NatToStringDigits(n / 10);
      var s := NatToString(n);
      assert s[..|s| - 1] == NatToString(n / 10);
    }
  }

  /** Number(String(i)) == i: reading back a rendered integer gives it back. */
  lemma IntToStringRoundTrip(i: int)
    ensures StringToNumber(IntToString(i)) == Some(i)
  {
    if i < 0 {
      NatToStringDigits(-i);
      var s := IntToString(i);
      assert !IsDigit(s[0]);
      assert s[1..] == NatToString(-i);
    } else {
      NatToStringDigits(i);
    }
  }

  /** JavaScript's a == b between two identifiers: a number and a string
      compare after the string is converted with Number(). */
  predicate LooseEq(a: Ident, b: Ident) {
    match (a, b)
    case (Num(m), Num(n)) => m == n
    case (Str(s), Str(t)) => s == t
    case (Num(m), Str(t)) => StringToNumber(t) == Some(m)
    case (Str(s), Num(n)) => StringToNumber(s) == Some(n)
  }

  /** a == b where b may be undefined, which equals no identifier. */
  predicate LooseEqUndef(a: Ident, b: Option<Ident>) {
    b.Some? && LooseEq(a, b.value)
  }

  lemma LooseEqSymmetric(a: Ident, b: Ident)
    ensures LooseEq(a, b) <==> LooseEq(b, a)
  {
  }

  /** A number is loosely equal to its own decimal rendering, so floor 4 and
      floor "4" are the same floor to the scripts. */
  lemma NumberEqualsItsString(n: int)
    ensures LooseEq(Num(n), Str(IntToString(n)))
  {
    IntToStringRoundTrip(n);
  }

  /** Array.prototype.join(sep) on an array of strings. */
  function Join(xs: seq<string>, sep: string): string {
    if |xs| == 0 then "" else if |xs| == 1 then xs[0] else xs[0] + sep + Join(xs[1..], sep)
  }

  /** Where the k-th element starts in Join(xs, sep). */
  function JoinOffset(xs: seq<string>, sep: string, k: nat): nat
    requires k < |xs|
  {
    if k == 0 then 0 else |xs[0]| + |sep| + JoinOffset(xs[1..], sep, k - 1)
  }

  /** A slice of the right part of a concatenation. */
  lemma SliceOfSuffix(h: string, j: string, lo: nat, hi: nat)
    requires lo <= hi <= |j|
    ensures (h + j)[|h| + lo..|h| + hi] == j[lo..hi]
  {
    assert forall i :: 0 <= i < hi - lo ==> (h + j)[|h| + lo..|h| + hi][i] == j[lo..hi][i];
  }

  /** Every element appears in the joined string, at its offset, and the
      separator follows every element but the last. */
  /** Join(xs, sep) ends where its last element ends: it holds the elements
      and separators and nothing more. */
  lemma {:induction false} JoinLength(xs: seq<string>, sep: string)
    requires |xs| > 0
    ensures JoinOffset(xs, sep, |xs| - 1) + |xs[|xs| - 1]| == |Join(xs, sep)|
  {
    if |xs| > 1 {
      var t := xs[1..];
      JoinLength(t, sep);
      assert xs[|xs| - 1] == t[|t| - 1];
      assert JoinOffset(xs, sep, |xs| - 1) == |xs[0]| + |sep| + JoinOffset(t, sep, |t| - 1);
      assert |Join(xs, sep)| == |xs[0]| + |sep| + |Join(t, sep)|;
    }
  }

  lemma {:induction false} JoinShowsEach(xs: seq<string>, sep: string, k: nat)
    requires k < |xs|
    ensures JoinOffset(xs, sep, k) + |xs[k]| <= |Join(xs, sep)|
    ensures Join(xs, sep)[JoinOffset(xs, sep, k)..JoinOffset(xs, sep, k) + |xs[k]|] == xs[k]
    ensures k + 1 < |xs| ==>
      JoinOffset(xs, sep, k) + |xs[k]| + |sep| <= |Join(xs, sep)| &&
      Join(xs, sep)[JoinOffset(xs, sep, k) + |xs[k]|..JoinOffset(xs, sep, k) + |xs[k]| + |sep|] == sep
  {
    if |xs| > 1 {
      var head, j := xs[0] + sep, Join(xs[1..], sep);
      assert Join(xs, sep) == head + j;
      if k == 0 {
        assert (xs[0] + sep + j)[..|xs[0]|] == xs[0];
        assert (xs[0] + sep + j)[|xs[0]|..|xs[0]| + |sep|] == sep;
      } else {
        JoinShowsEach(xs[1..], sep, k - 1);
        var o := JoinOffset(xs[1..], sep, k - 1);
        assert JoinOffset(xs, sep, k) == |head| + o;
        SliceOfSuffix(head, j, o, o + |xs[k]|);
        if k + 1 < |xs| {
          SliceOfSuffix(head, j, o + |xs[k]|, o + |xs[k]| + |sep|);
        }
      }
    }
  }

  function LowerChar(c: char): char {
    if 'A' <= c <= 'Z' then (c as int + 32) as char else c
  }

  /** String.prototype.toLowerCase on ASCII letters. */
  function Lower(s: string): (r: string)
    ensures |r| == |s|
    ensures forall i :: 0 <= i < |s| ==> r[i] == LowerChar(s[i])
  {
    if s == [] then [] else [LowerChar(s[0])] + Lower(s[1..])
  }

  /** Lower-casing twice is lower-casing once. */
  lemma LowerIdempotent(s: string)
    ensures Lower(Lower(s)) == Lower(s)
  {
    assert forall i :: 0 <= i < |s| ==> LowerChar(LowerChar(s[i])) == LowerChar(s[i]);
  }

  /** A string without capital letters is its own lower case. */
  lemma LowerWithoutCapitals(s: string)
    requires forall i :: 0 <= i < |s| ==> !('A' <= s[i] <= 'Z')
    ensures Lower(s) == s
  {
  }
}
