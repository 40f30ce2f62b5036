/** Text helpers: JavaScript's decimal rendering of a non-negative integer,
    `Array.prototype.join` with a one-character separator, and its inverse. */
module Strings {

  /** The character of a decimal digit. */
  function DigitChar(d: nat): (c: char)
    requires d < 10
    ensures '0' <= c <= '9'
    ensures (c as int) - ('0' as int) == d
  {
    ((('0' as int) + d) as char)
  }

  /** The number a string of decimal digits denotes (most significant first). */
  function DigitsValue(s: string): nat
    requires forall i :: 0 <= i < |s| ==> '0' <= s[i] <= '9'
  {
    if s == [] then 0
    else DigitsValue(s[..|s| - 1]) * 10 + ((s[|s| - 1] as int) - ('0' as int))
  }

  /** How JavaScript turns a non-negative integer number into text, as in
      `n + '|'` (exact for integers below 10^21). */
  function Decimal(n: nat): (s: string)
    ensures 1 <= |s|
    ensures forall i :: 0 <= i < |s| ==> '0' <= s[i] <= '9'
    ensures DigitsValue(s) == n
    ensures n < 10 <==> |s| == 1
    ensures n >= 10 ==> s[0] != '0'
  {
    if n < 10 then [DigitChar(n)]
    else
      var prefix := Decimal(n / 10);
      var s := prefix + [DigitChar(n % 10)];
      assert s[..|s| - 1] == prefix;
      s
  }

  /** Distinct numbers are rendered as distinct strings. */
  lemma DecimalInjective(a: nat, b: nat)
    ensures Decimal(a) == Decimal(b) <==> a == b
  {
    if Decimal(a) == Decimal(b) {
      assert DigitsValue(Decimal(a)) == DigitsValue(Decimal(b));
    }
  }

  /** The position of the first occurrence of `c` in `s`. */
  function IndexOf(s: string, c: char): (i: nat)
    requires c in s
    ensures i < |s| && s[i] == c
    ensures c !in s[..i]
  {
    if s[0] == c then 0
    else
      var j := IndexOf(s[1..], c);
      assert s[1..][..j] == s[1..j + 1];
      assert s[..j + 1] == [s[0]] + s[1..j + 1];
      j + 1
  }

  /** In `x + [sep] + y` with no separator in `x`, the first separator sits
      right after `x`. */
  lemma FirstSeparator(x: string, sep: char, y: string)
    requires sep !in x
    ensures sep in x + [sep] + y
    ensures IndexOf(x + [sep] + y, sep) == |x|
  {
    var s := x + [sep] + y;
    assert s[|x|] == sep;
    assert s[..|x|] == x;
  }

  /** A string cut at the first separator determines both halves. */
  lemma SplitAtFirstSeparator(x: string, y: string, x': string, y': string, sep: char)
    requires sep !in x && sep !in x'
    requires x + [sep] + y == x' + [sep] + y'
    ensures x == x' && y == y'
  {
    var s := x + [sep] + y;
    FirstSeparator(x, sep, y);
    FirstSeparator(x', sep, y');
    assert |x| == |x'|;
    assert x == s[..|x|] == x';
    assert y == s[|x| + 1..] == y';
  }

  /** `parts.join(sep)` for a one-character separator. */
  function Join(parts: seq<string>, sep: char): (s: string)
    ensures |parts| == 1 ==> s == parts[0]
    ensures |parts| >= 2 ==> sep in s
  {
    if |parts| == 0 then ""
    else if |parts| == 1 then parts[0]
    else
      var s := parts[0] + [sep] + Join(parts[1..], sep);
      assert s[|parts[0]|] == sep;
      s
  }

  /** `s.split(sep)`: the pieces between separators, always at least one. */
  function Split(s: string, sep: char): (parts: seq<string>)
    ensures 1 <= |parts|
    ensures sep !in s ==> parts == [s]
    decreases |s|
  {
    if sep !in s then [s]
    else
      var i := IndexOf(s, sep);
      [s[..i]] + Split(s[i + 1..], sep)
  }

  /** Splitting a string that starts with a separator-free piece and a
      separator yields that piece, then the split of the rest. */
  lemma SplitFirstPiece(x: string, sep: char, rest: string)
    requires sep !in x
    ensures Split(x + [sep] + rest, sep) == [x] + Split(rest, sep)
  {
    var s := x + [sep] + rest;
    FirstSeparator(x, sep, rest);
    assert s[..|x|] == x;
    assert s[|x| + 1..] == rest;
  }

  /** Splitting a join of separator-free pieces gives the pieces back. */
  lemma {:induction false} SplitJoin(parts: seq<string>, sep: char)
    requires 1 <= |parts|
    requires forall k :: 0 <= k < |parts| ==> sep !in parts[k]
    ensures Split(Join(parts, sep), sep) == parts
  {
    if |parts| > 1 {
      var tail := parts[1..];
      assert forall k :: 0 <= k < |tail| ==> tail[k] == parts[k + 1];
      SplitFirstPiece(parts[0], sep, Join(tail, sep));
      SplitJoin(tail, sep);
      assert parts == [parts[0]] + tail;
    }
  }

  /** Joining separator-free pieces loses nothing: equal joins mean equal
      piece lists, so a change of order or of any one piece shows. */
  lemma JoinInjective(a: seq<string>, b: seq<string>, sep: char)
    requires 1 <= |a| && 1 <= |b|
    requires forall k :: 0 <= k < |a| ==> sep !in a[k]
    requires forall k :: 0 <= k < |b| ==> sep !in b[k]
    ensures Join(a, sep) == Join(b, sep) <==> a == b
  {
    if Join(a, sep) == Join(b, sep) {
      SplitJoin(a, sep);
      SplitJoin(b, sep);
    }
  }
}
