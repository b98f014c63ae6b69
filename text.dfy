/**
 * The parts of java.lang.String and Integer that the configuration parsers rely on:
 * trim, split on a single space (with and without a limit), startsWith,
 * Integer.parseInt and Integer.toString of a non-negative number.
 */
module Text {
  import opened Wrappers

  const INT_MIN: int := -0x8000_0000
  const INT_MAX: int := 0x7FFF_FFFF

  /** `String.trim()` removes every leading and trailing character whose code is at most U+0020. */
  predicate IsTrimmed(c: char) { c <= ' ' }

  function TrimStart(s: string): (r: string)
    ensures |r| <= |s| && r == s[|s| - |r|..]
    ensures r == [] || !IsTrimmed(r[0])
    ensures forall i :: 0 <= i < |s| - |r| ==> IsTrimmed(s[i])
  {
    if s != [] && IsTrimmed(s[0]) then TrimStart(s[1..]) else s
  }

  function TrimEnd(s: string): (r: string)
    ensures |r| <= |s| && r == s[..|r|]
    ensures r == [] || !IsTrimmed(r[|r| - 1])
    ensures forall i :: |r| <= i < |s| ==> IsTrimmed(s[i])
  {
    if s != [] && IsTrimmed(s[|s| - 1]) then TrimEnd(s[..|s| - 1]) else s
  }

  function Trim(s: string): (r: string)
    ensures |r| <= |s|
  {
    TrimEnd(TrimStart(s))
  }

  /** What `trim()` leaves: nothing for a blank string, otherwise a string with no blank at either end. */
  lemma TrimmedForm(s: string)
    ensures Trim(s) == [] || (!IsTrimmed(Trim(s)[0]) && !IsTrimmed(Trim(s)[|Trim(s)| - 1]))
    ensures Trim(s) == [] <==> forall i :: 0 <= i < |s| ==> IsTrimmed(s[i])
  {
  }

  /** `s.startsWith(p)` */
  predicate StartsWith(s: string, p: string) {
    |p| <= |s| && s[..|p|] == p
  }

  /** Index of the first `c` in `s`. */
  function IndexOf(s: string, c: char): (i: nat)
    requires c in s
    ensures i < |s| && s[i] == c && c !in s[..i]
  {
    if s[0] == c then 0 else 1 + IndexOf(s[1..], c)
  }

  /** Every piece between single spaces, empty pieces included. */
  function Fields(s: string): (r: seq<string>)
    ensures |r| >= 1
    ensures forall i :: 0 <= i < |r| ==> ' ' !in r[i]
    decreases |s|
  {
    if ' ' !in s then [s]
    else
      var i := IndexOf(s, ' ');
      [s[..i]] + Fields(s[i + 1..])
  }

  function DropTrailingEmpty(r: seq<string>): (q: seq<string>)
    ensures |q| <= |r| && q == r[..|q|]
    ensures q == [] || q[|q| - 1] != ""
    ensures forall i :: |q| <= i < |r| ==> r[i] == ""
  {
    if r != [] && r[|r| - 1] == "" then DropTrailingEmpty(r[..|r| - 1]) else r
  }

  /**
   * `s.split(" ")`: the pieces between single spaces with trailing empty pieces removed;
   * a string without a space comes back whole.
   */
  function Split(s: string): (r: seq<string>)
    ensures forall i :: 0 <= i < |r| ==> ' ' !in r[i]
    ensures ' ' !in s ==> r == [s]
  {
    if ' ' !in s then [s] else DropTrailingEmpty(Fields(s))
  }

  /** `s.split(" ", limit)` for a positive limit: at most `limit` pieces, the last keeps the rest. */
  function SplitLimit(s: string, limit: nat): (r: seq<string>)
    requires limit >= 1
    ensures 1 <= |r| <= limit
    ensures forall i :: 0 <= i < |r| - 1 ==> ' ' !in r[i]
    decreases limit
  {
    if limit == 1 || ' ' !in s then [s]
    else
      var i := IndexOf(s, ' ');
      [s[..i]] + SplitLimit(s[i + 1..], limit - 1)
  }

  /** The first space of `p + " " + q` is the one after `p` when `p` has none. */
  lemma IndexOfSeparator(p: string, q: string)
    requires ' ' !in p
    ensures ' ' in p + " " + q && IndexOf(p + " " + q, ' ') == |p|
  {
    var s := p + " " + q;
    assert s[|p|] == ' ';
    assert s[..|p|] == p;
  }

  /** Splitting a line built from space-free tokens gives the tokens back. */
  lemma {:induction false} FieldsOfJoin(r: seq<string>)
    requires |r| >= 1 && forall i :: 0 <= i < |r| ==> ' ' !in r[i]
    ensures Fields(Join(r)) == r
  {
    if |r| > 1 {
      var s := Join(r);
      IndexOfSeparator(r[0], Join(r[1..]));
      assert s[..|r[0]|] == r[0];
      assert s[|r[0]| + 1..] == Join(r[1..]);
      FieldsOfJoin(r[1..]);
      assert r == [r[0]] + r[1..];
    }
  }

  /** `String.join(" ", r).split(" ") == r` for space-free tokens whose last one is not empty. */
  lemma SplitOfJoin(r: seq<string>)
    requires |r| >= 1 && forall i :: 0 <= i < |r| ==> ' ' !in r[i]
    requires r[|r| - 1] != ""
    ensures Split(Join(r)) == r
  {
    FieldsOfJoin(r);
    if |r| > 1 {
      IndexOfSeparator(r[0], Join(r[1..]));
    }
  }

  /** Joining the fields with single spaces gives back the line. */
  function Join(r: seq<string>): string
    requires |r| >= 1
  {
    if |r| == 1 then r[0] else r[0] + " " + Join(r[1..])
  }

  lemma {:induction false} JoinFields(s: string)
    ensures Join(Fields(s)) == s
    decreases |s|
  {
    if ' ' in s {
      var i := IndexOf(s, ' ');
      JoinFields(s[i + 1..]);
      assert s == s[..i] + " " + s[i + 1..];
    }
  }

  predicate IsDigit(c: char) { '0' <= c <= '9' }

  predicate AllDigits(s: string) { forall i :: 0 <= i < |s| ==> IsDigit(s[i]) }

  function DigitsValue(s: string): (n: nat)
    requires AllDigits(s)
  {
    if s == [] then 0 else DigitsValue(s[..|s| - 1]) * 10 + (s[|s| - 1] as int - '0' as int)
  }

  /**
   * `Integer.parseInt(s)`: an optional sign followed by at least one decimal digit, and a value
   * that fits in 32 bits; anything else is a NumberFormatException (here: None).
   */
  function ParseInt(s: string): (r: Option<int>)
    ensures r.Some? ==> INT_MIN <= r.value <= INT_MAX
    ensures r.Some? ==> s != [] && (IsDigit(s[0]) || s[0] == '-' || s[0] == '+')
    ensures s == [] || s == "-" || s == "+" ==> r.None?
  {
    if s == [] then None
    else
      var neg := s[0] == '-';
      var digits := if s[0] == '-' || s[0] == '+' then s[1..] else s;
      if digits == [] || !AllDigits(digits) then None
      else
        var v: int := if neg then 0 - DigitsValue(digits) as int else DigitsValue(digits);
        if INT_MIN <= v <= INT_MAX then Some(v) else None
  }

  function Digit(d: nat): (c: char)
    requires d < 10
    ensures IsDigit(c) && c as int - '0' as int == d
  {
    ('0' as int + d) as char
  }

  /** `Integer.toString(n)` for n >= 0: decimal digits, no leading zero. */
  function NatToString(n: nat): (r: string)
    ensures |r| >= 1 && AllDigits(r)
    ensures |r| > 1 ==> r[0] != '0'
  {
    if n < 10 then [Digit(n)] else NatToString(n / 10) + [Digit(n % 10)]
  }

  lemma {:induction false} DigitsOfNatToString(n: nat)
    ensures DigitsValue(NatToString(n)) == n
  {
    if n >= 10 {
      DigitsOfNatToString(n / 10);
      var r := NatToString(n);
      assert r[..|r| - 1] == NatToString(n / 10);
    }
  }

  /** Distinct numbers print differently: the `#n` suffixes of the roster never collide. */
  lemma NatToStringInjective(a: nat, b: nat)
    ensures NatToString(a) == NatToString(b) <==> a == b
  {
    DigitsOfNatToString(a);
    DigitsOfNatToString(b);
  }

  /** `Integer.toString(i)`: a minus sign before the digits of a negative number. */
  function IntToString(i: int): (r: string)
    ensures |r| >= 1 && ' ' !in r
  {
    if i < 0 then "-" + NatToString(-i) else NatToString(i)
  }

  /** `Integer.parseInt(Integer.toString(i)) == i` for every 32-bit value. */
  lemma ParseIntOfIntToString(i: int)
    requires INT_MIN <= i <= INT_MAX
    ensures ParseInt(IntToString(i)) == Some(i)
  {
    DigitsOfNatToString(if i < 0 then -i else i);
    if i < 0 {
      assert IntToString(i)[1..] == NatToString(-i);
    }
  }

  /** `Integer.parseInt(Integer.toString(n)) == n` for every non-negative 32-bit value. */
  lemma ParseIntOfNatToString(n: nat)
    requires n <= INT_MAX
    ensures ParseInt(NatToString(n)) == Some(n)
  {
    DigitsOfNatToString(n);
  }
}
