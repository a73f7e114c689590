/** The JavaScript string operations the provider code relies on:
    `Number.prototype.toString` on integers, `padStart`, the remainder
    operator `%`, `trim`, `split` on a one-character separator and `join`. */
module JsStrings {

  // ---------------------------------------------------------------- digits

  predicate IsDigit(c: char) {
    '0' <= c <= '9'
  }

  predicate AllDigits(s: string) {
    forall i :: 0 <= i < |s| ==> IsDigit(s[i])
  }

  function DigitChar(d: nat): (c: char)
    requires d < 10
    ensures IsDigit(c)
  {
    ('0' as int + d) as char
  }

  function DigitValue(c: char): (d: nat)
    requires IsDigit(c)
    ensures d < 10
  {
    c as int - '0' as int
  }

  /** The decimal text of a non-negative integer, as `String(n)` prints it:
      digits only, and no leading zero except for "0" itself. */
  function NatToDecimal(n: nat): (s: string)
    ensures |s| >= 1 && AllDigits(s)
    ensures s[0] == '0' ==> n == 0
    ensures |s| == 1 <==> n < 10
    decreases n
  {
    if n < 10 then [DigitChar(n)] else NatToDecimal(n / 10) + [DigitChar(n % 10)]
  }

  /** The number a string of decimal digits denotes. */
  function DecimalValue(s: string): nat
    requires AllDigits(s)
    decreases |s|
  {
    if |s| == 0 then 0 else DecimalValue(s[..|s| - 1]) * 10 + DigitValue(s[|s| - 1])
  }

  /** Printing a number and reading it back gives the number. */
  lemma {:induction false} DecimalRoundTrip(n: nat)
    ensures DecimalValue(NatToDecimal(n)) == n
    decreases n
  {
    if n >= 10 {
      DecimalRoundTrip(n / 10);
      var s := NatToDecimal(n);
      assert s[..|s| - 1] == NatToDecimal(n / 10);
    }
  }

  /** Reading a canonical decimal string and printing it back gives the string. */
  lemma {:induction false} DecimalRoundTripBack(s: string)
    requires |s| >= 1 && AllDigits(s)
    requires s[0] == '0' ==> |s| == 1
    ensures NatToDecimal(DecimalValue(s)) == s
    decreases |s|
  {
    var n := DecimalValue(s);
    if |s| == 1 {
      assert s[..0] == [] && DecimalValue(s[..0]) == 0;
      assert n == DigitValue(s[0]);
      assert DigitChar(n) == s[0];
      assert [DigitChar(n)] == s;
    } else {
      var p := s[..|s| - 1];
      DecimalRoundTripBack(p);
      DecimalLowerBound(p);
      assert n / 10 == DecimalValue(p);
      assert n % 10 == DigitValue(s[|s| - 1]);
      assert DigitChar(n % 10) == s[|s| - 1];
      assert s == p + [s[|s| - 1]];
    }
  }

  /** A canonical decimal string of two or more digits denotes at least 10. */
  lemma {:induction false} DecimalLowerBound(s: string)
    requires |s| >= 1 && AllDigits(s) && s[0] != '0'
    ensures DecimalValue(s) >= 1
    ensures |s| >= 2 ==> DecimalValue(s) >= 10
    decreases |s|
  {
    if |s| >= 2 {
      DecimalLowerBound(s[..|s| - 1]);
    }
  }

  /** `String(n)` for any integer. */
  function IntToDecimal(n: int): string {
    if n < 0 then "-" + NatToDecimal(-n) else NatToDecimal(n)
  }

  // ------------------------------------------------------------ arithmetic

  /** JavaScript's `a % b` for a positive divisor: the remainder takes the
      sign of the dividend (Dafny's `%` is Euclidean and never negative). */
  function JsRem(a: int, b: int): (r: int)
    requires b > 0
    ensures a >= 0 ==> r == a % b
    ensures -b < r < b
  {
    if a >= 0 then a % b else -((-a) % b)
  }

  // --------------------------------------------------------------- padding

  function Repeat(c: char, k: nat): string
  {
    seq(k, _ => c)
  }

  /** `s.padStart(width, pad)` with a one-character pad string. */
  function PadStart(s: string, width: nat, pad: char): string
  {
    if |s| >= width then s else Repeat(pad, width - |s|) + s
  }

  // ------------------------------------------------------------ whitespace

  /** The characters `String.prototype.trim` removes: the ECMAScript
      WhiteSpace and LineTerminator code points. */
  predicate IsJsWhitespace(c: char) {
    var k := c as int;
    k == 0x09 || k == 0x0A || k == 0x0B || k == 0x0C || k == 0x0D || k == 0x20 ||
    k == 0xA0 || k == 0x1680 || (0x2000 <= k <= 0x200A) || k == 0x2028 || k == 0x2029 ||
    k == 0x202F || k == 0x205F || k == 0x3000 || k == 0xFEFF
  }

  predicate AllWhitespace(s: string) {
    forall i :: 0 <= i < |s| ==> IsJsWhitespace(s[i])
  }

  function TrimStart(s: string): string
    decreases |s|
  {
    if |s| > 0 && IsJsWhitespace(s[0]) then TrimStart(s[1..]) else s
  }

  function TrimEnd(s: string): string
    decreases |s|
  {
    if |s| > 0 && IsJsWhitespace(s[|s| - 1]) then TrimEnd(s[..|s| - 1]) else s
  }

  /** `s.trim()`. */
  function Trim(s: string): string {
    TrimEnd(TrimStart(s))
  }

  /** `trimStart` drops a whitespace prefix and stops at the first other character. */
  lemma {:induction false} TrimStartCuts(s: string)
    ensures var r := TrimStart(s);
            |r| <= |s| && r == s[|s| - |r|..] && AllWhitespace(s[..|s| - |r|]) &&
            (r != [] ==> !IsJsWhitespace(r[0]))
    decreases |s|
  {
    if |s| > 0 && IsJsWhitespace(s[0]) {
      TrimStartCuts(s[1..]);
      var r := TrimStart(s);
      assert s[|s| - |r|..] == s[1..][|s| - 1 - |r|..];
      assert s[..|s| - |r|] == [s[0]] + s[1..][..|s| - 1 - |r|];
    }
  }

  /** `trimEnd` drops a whitespace suffix and stops at the last other character. */
  lemma {:induction false} TrimEndCuts(s: string)
    ensures var r := TrimEnd(s);
            |r| <= |s| && r == s[..|r|] && AllWhitespace(s[|r|..]) &&
            (r != [] ==> !IsJsWhitespace(r[|r| - 1]))
    decreases |s|
  {
    if |s| > 0 && IsJsWhitespace(s[|s| - 1]) {
      var p := s[..|s| - 1];
      TrimEndCuts(p);
      var r := TrimEnd(s);
      assert s[..|r|] == p[..|r|];
      assert s[|r|..] == p[|r|..] + [s[|s| - 1]];
    }
  }

  /** `trim` cuts a contiguous piece out of its input, removes only
      whitespace, and leaves no whitespace at either end of what it keeps. */
  lemma TrimCutsWhitespace(s: string)
    ensures exists i, j :: 0 <= i <= j <= |s| && Trim(s) == s[i..j] &&
                           AllWhitespace(s[..i]) && AllWhitespace(s[j..])
    ensures Trim(s) != [] ==> !IsJsWhitespace(Trim(s)[0]) && !IsJsWhitespace(Trim(s)[|Trim(s)| - 1])
  {
    var t := TrimStart(s);
    TrimStartCuts(s);
    TrimEndCuts(t);
    var r := TrimEnd(t);
    var i := |s| - |t|;
    var j := i + |r|;
    assert r == s[i..j];
    assert AllWhitespace(s[j..]) by {
      assert s[j..] == t[|r|..];
    }
  }

  /** A string trims to "" exactly when it is all whitespace. */
  lemma TrimBlank(s: string)
    ensures Trim(s) == "" <==> AllWhitespace(s)
  {
    var t := TrimStart(s);
    TrimStartCuts(s);
    TrimEndCuts(t);
    if Trim(s) == "" {
      assert AllWhitespace(t) by {
        assert t[|Trim(s)|..] == t;
      }
      assert s == s[..|s| - |t|] + t;
    } else {
      TrimCutsWhitespace(s);
    }
  }

  // ---------------------------------------------------- splitting, joining

  /** `s.split(sep)` where `sep` is one character or a one-character class
      (given here as a set): every separator ends a part, so there is always
      one part more than there are separators. */
  function Split(s: string, seps: set<char>): (parts: seq<string>)
    ensures |parts| >= 1
    ensures forall k, i :: 0 <= k < |parts| && 0 <= i < |parts[k]| ==> parts[k][i] !in seps
    decreases |s|
  {
    if s == [] then [""]
    else
      var rest := Split(s[1..], seps);
      if s[0] in seps then [""] + rest
      else
        assert forall k :: 1 <= k < |rest| ==> rest[k] == rest[1..][k - 1];
        [[s[0]] + rest[0]] + rest[1..]
  }

  /** Index of the first separator in `s`, or |s| when there is none. */
  function FirstSep(s: string, seps: set<char>): (i: nat)
    ensures i <= |s|
    ensures i < |s| ==> s[i] in seps
    ensures forall j :: 0 <= j < i ==> s[j] !in seps
    decreases |s|
  {
    if s == [] then 0
    else if s[0] in seps then 0
    else 1 + FirstSep(s[1..], seps)
  }

  /** The first part runs up to the first separator; the remaining parts are
      the split of what follows it. */
  lemma {:induction false} SplitAtFirst(s: string, seps: set<char>)
    ensures Split(s, seps)[0] == s[..FirstSep(s, seps)]
    ensures FirstSep(s, seps) == |s| ==> Split(s, seps) == [s]
    ensures FirstSep(s, seps) < |s| ==>
              Split(s, seps)[1..] == Split(s[FirstSep(s, seps) + 1..], seps)
    decreases |s|
  {
    if s != [] && s[0] !in seps {
      SplitAtFirst(s[1..], seps);
      assert s == [s[0]] + s[1..];
      if FirstSep(s[1..], seps) < |s| - 1 {
        assert s[1..][FirstSep(s[1..], seps) + 1..] == s[FirstSep(s, seps) + 1..];
      }
    }
  }

  /** The split has at least two parts exactly when a separator occurs. */
  lemma SplitHasTwoParts(s: string, seps: set<char>)
    ensures |Split(s, seps)| >= 2 <==> exists i :: 0 <= i < |s| && s[i] in seps
  {
    SplitAtFirst(s, seps);
  }

  /** The position of the first separator is determined by the characters
      up to it. */
  lemma FirstSepAt(s: string, seps: set<char>, i: nat)
    requires i <= |s| && (i < |s| ==> s[i] in seps)
    requires forall j :: 0 <= j < i ==> s[j] !in seps
    ensures FirstSep(s, seps) == i
  {
  }

  /** A string without separators splits into itself alone. */
  lemma SplitNoSep(s: string, seps: set<char>)
    requires forall j :: 0 <= j < |s| ==> s[j] !in seps
    ensures Split(s, seps) == [s]
  {
    FirstSepAt(s, seps, |s|);
    SplitAtFirst(s, seps);
  }

  /** A separator after a separator-free prefix ends the first part. */
  lemma SplitCons(a: string, c: char, b: string, seps: set<char>)
    requires forall j :: 0 <= j < |a| ==> a[j] !in seps
    requires c in seps
    ensures Split(a + [c] + b, seps) == [a] + Split(b, seps)
  {
    var s := a + [c] + b;
    FirstSepAt(s, seps, |a|);
    SplitAtFirst(s, seps);
    assert s[..|a|] == a;
    assert s[|a| + 1..] == b;
  }

  /** One separator between two separator-free pieces: two parts. */
  lemma SplitTwo(a: string, c: char, b: string, seps: set<char>)
    requires forall j :: 0 <= j < |a| ==> a[j] !in seps
    requires forall j :: 0 <= j < |b| ==> b[j] !in seps
    requires c in seps
    ensures Split(a + [c] + b, seps) == [a, b]
  {
    SplitCons(a, c, b, seps);
    SplitNoSep(b, seps);
  }

  /** No character of `s` is `c`. */
  predicate Lacks(s: string, c: char) {
    forall j :: 0 <= j < |s| ==> s[j] !in {c}
  }

  /** Three separators between four separator-free pieces: four parts. */
  lemma SplitFour(a: string, b: string, c: string, d: string, sep: char)
    requires Lacks(a, sep) && Lacks(b, sep) && Lacks(c, sep) && Lacks(d, sep)
    ensures Split(a + [sep] + (b + [sep] + (c + [sep] + d)), {sep}) == [a, b, c, d]
  {
    var cd := c + [sep] + d;
    SplitTwo(c, sep, d, {sep});
    var bcd := b + [sep] + cd;
    SplitCons(b, sep, cd, {sep});
    SplitCons(a, sep, bcd, {sep});
  }

  /** `parts.join(sep)`. */
  function Join(parts: seq<string>, sep: string): string
    decreases |parts|
  {
    if |parts| == 0 then ""
    else if |parts| == 1 then parts[0]
    else parts[0] + sep + Join(parts[1..], sep)
  }

  /** Joining a concatenation of two non-empty lists puts one separator
      between their joins. */
  lemma {:induction false} JoinAppend(a: seq<string>, b: seq<string>, sep: string)
    requires |a| >= 1 && |b| >= 1
    ensures Join(a + b, sep) == Join(a, sep) + sep + Join(b, sep)
    decreases |a|
  {
    if |a| > 1 {
      JoinAppend(a[1..], b, sep);
      assert (a + b)[1..] == a[1..] + b;
    }
  }

  /** Splitting on one character and joining with it gives the input back. */
  lemma {:induction false} JoinSplit(s: string, c: char)
    ensures Join(Split(s, {c}), [c]) == s
    decreases |s|
  {
    if s != [] {
      JoinSplit(s[1..], c);
      var rest := Split(s[1..], {c});
      if s[0] != c {
        var parts := Split(s, {c});
        assert parts[1..] == rest[1..];
        if |rest| == 1 {
          assert Join(parts, [c]) == [s[0]] + rest[0];
        } else {
          assert Join(parts, [c]) == [s[0]] + rest[0] + [c] + Join(rest[1..], [c]);
        }
        assert s == [s[0]] + s[1..];
      }
    }
  }
}
