// String helpers with the behaviour of the JUCE String/StringArray/File
// members the program calls: tokenising, integer parsing and printing,
// case-insensitive suffix tests and file names.
module Text {

  /** The separators of `StringArray::fromTokens (text, "\n ", "")`. */
  const LineAndSpace: set<char> := {'\n', ' '}

  /** The length of the leading run of characters that are not separators. */
  function RunLength(s: string, seps: set<char>): (n: nat)
    ensures n <= |s|
    ensures forall i :: 0 <= i < n ==> s[i] !in seps
    ensures n < |s| ==> s[n] in seps
  {
    if |s| == 0 || s[0] in seps then 0 else 1 + RunLength(s[1..], seps)
  }

  /**
   * `StringArray::fromTokens (s, seps, "")` followed by `removeEmptyStrings ()`:
   * the maximal runs of non-separator characters, in order.
   */
  function Tokens(s: string, seps: set<char>): (ts: seq<string>)
    ensures forall k :: 0 <= k < |ts| ==> |ts[k]| > 0
    ensures forall k, i :: 0 <= k < |ts| && 0 <= i < |ts[k]| ==> ts[k][i] !in seps
    decreases |s|
  {
    if |s| == 0 then []
    else if s[0] in seps then Tokens(s[1..], seps)
    else
      var n := RunLength(s, seps);
      [s[..n]] + Tokens(s[n..], seps)
  }

  /** The characters of `s` that are not separators, in order. */
  function WithoutSeparators(s: string, seps: set<char>): string
  {
    if |s| == 0 then []
    else (if s[0] in seps then [] else [s[0]]) + WithoutSeparators(s[1..], seps)
  }

  function Concat(ss: seq<string>): string
  {
    if |ss| == 0 then [] else ss[0] + Concat(ss[1..])
  }

  /** Tokenising loses exactly the separators: the tokens glued together are the text without them. */
  lemma {:induction false} TokensLoseOnlySeparators(s: string, seps: set<char>)
    ensures Concat(Tokens(s, seps)) == WithoutSeparators(s, seps)
    decreases |s|
  {
    if |s| == 0 {
    } else if s[0] in seps {
      TokensLoseOnlySeparators(s[1..], seps);
    } else {
      var n := RunLength(s, seps);
      TokensLoseOnlySeparators(s[n..], seps);
      RunHasNoSeparators(s, n, seps);
      WithoutSeparatorsSplit(s[..n], s[n..], seps);
      assert s[..n] + s[n..] == s;
    }
  }

  lemma {:induction false} RunHasNoSeparators(s: string, n: nat, seps: set<char>)
    requires n <= |s|
    requires forall i :: 0 <= i < n ==> s[i] !in seps
    ensures WithoutSeparators(s[..n], seps) == s[..n]
    decreases n
  {
    if n > 0 {
      RunHasNoSeparators(s[1..], n - 1, seps);
      assert s[..n][1..] == s[1..][..n - 1];
    }
  }

  lemma {:induction false} WithoutSeparatorsSplit(a: string, b: string, seps: set<char>)
    ensures WithoutSeparators(a + b, seps) == WithoutSeparators(a, seps) + WithoutSeparators(b, seps)
    decreases |a|
  {
    if |a| == 0 {
      assert a + b == b;
    } else {
      WithoutSeparatorsSplit(a[1..], b, seps);
      assert (a + b)[1..] == a[1..] + b;
    }
  }

  /** A string without separators is one token, or none when it is empty. */
  lemma {:induction false} TokensOfWord(w: string, seps: set<char>)
    requires forall i :: 0 <= i < |w| ==> w[i] !in seps
    ensures Tokens(w, seps) == if |w| == 0 then [] else [w]
  {
    if |w| > 0 {
      RunOfWord(w, seps);
      assert w[..|w|] == w;
    }
  }

  lemma {:induction false} RunOfWord(w: string, seps: set<char>)
    requires forall i :: 0 <= i < |w| ==> w[i] !in seps
    ensures RunLength(w, seps) == |w|
    decreases |w|
  {
    if |w| > 0 {
      RunOfWord(w[1..], seps);
    }
  }

  /** Tokens of two pieces joined by a separator are the tokens of each piece. */
  lemma {:induction false} TokensOfJoin(a: string, c: char, b: string, seps: set<char>)
    requires forall i :: 0 <= i < |a| ==> a[i] !in seps
    requires c in seps
    ensures Tokens(a + [c] + b, seps) == Tokens(a, seps) + Tokens(b, seps)
    decreases |a|
  {
    var s := a + [c] + b;
    if |a| == 0 {
      assert s[1..] == b;
    } else {
      var n := RunLength(s, seps);
      RunPrefix(a, [c] + b, seps);
      assert s == a + ([c] + b);
      assert n == |a|;
      assert s[..n] == a;
      assert s[n..] == [c] + b;
      assert ([c] + b)[1..] == b;
      TokensOfWord(a, seps);
    }
  }

  lemma {:induction false} RunPrefix(a: string, rest: string, seps: set<char>)
    requires forall i :: 0 <= i < |a| ==> a[i] !in seps
    requires |rest| > 0 && rest[0] in seps
    ensures RunLength(a + rest, seps) == |a|
    decreases |a|
  {
    if |a| > 0 {
      RunPrefix(a[1..], rest, seps);
      assert (a + rest)[1..] == a[1..] + rest;
    }
  }

  // ---------------------------------------------------------------------
  // Integers as text

  predicate IsDigit(c: char) { '0' <= c <= '9' }

  /** `CharacterFunctions::isWhitespace`: the space and the control characters from tab to carriage return. */
  predicate IsSpace(c: char) { c == ' ' || '\t' <= c <= '\r' }

  function DigitValue(c: char): (d: int)
    requires IsDigit(c)
    ensures 0 <= d < 10
  {
    c as int - '0' as int
  }

  /** The length of the leading run of decimal digits. */
  function DigitRun(s: string): (n: nat)
    ensures n <= |s|
    ensures forall i :: 0 <= i < n ==> IsDigit(s[i])
    ensures n < |s| ==> !IsDigit(s[n])
  {
    if |s| == 0 || !IsDigit(s[0]) then 0 else 1 + DigitRun(s[1..])
  }

  /** The value of a string of decimal digits, most significant first. */
  function Decimal(s: string): (v: nat)
    requires forall i :: 0 <= i < |s| ==> IsDigit(s[i])
  {
    if |s| == 0 then 0 else 10 * Decimal(s[..|s| - 1]) + DigitValue(s[|s| - 1])
  }

  function SkipSpace(s: string): (t: string)
    ensures |t| <= |s| && t == s[|s| - |t|..]
    ensures |t| > 0 ==> !IsSpace(t[0])
  {
    if |s| > 0 && IsSpace(s[0]) then SkipSpace(s[1..]) else s
  }

  /**
   * `String::getIntValue ()`: leading white space is skipped, a '-' negates,
   * and the longest run of digits after it is read; anything after the
   * digits is ignored, and no digits read as 0.
   */
  function IntValue(s: string): int
  {
    var t := SkipSpace(s);
    if |t| > 0 && t[0] == '-' then -(UnsignedValue(t[1..]) as int) else UnsignedValue(t)
  }

  function UnsignedValue(t: string): nat
  {
    var n := DigitRun(t);
    Decimal(t[..n])
  }

  /** Decimal digits of a natural number, without leading zeros. */
  function NatToString(n: nat): (s: string)
    ensures |s| > 0 && forall i :: 0 <= i < |s| ==> IsDigit(s[i])
  {
    var d := ['0', '1', '2', '3', '4', '5', '6', '7', '8', '9'][n % 10];
    if n < 10 then [d] else NatToString(n / 10) + [d]
  }

  /** `std::to_string (int)` and the `%d` conversion: a '-' for negative numbers, then the digits. */
  function IntToString(i: int): (s: string)
    ensures |s| > 0
  {
    if i < 0 then "-" + NatToString(-i) else NatToString(i)
  }

  lemma {:induction false} DecimalOfNatToString(n: nat)
    ensures Decimal(NatToString(n)) == n
  {
    var s := NatToString(n);
    if n >= 10 {
      DecimalOfNatToString(n / 10);
      assert s[..|s| - 1] == NatToString(n / 10);
    }
  }

  lemma {:induction false} DigitRunOfDigits(s: string)
    requires forall i :: 0 <= i < |s| ==> IsDigit(s[i])
    ensures DigitRun(s) == |s|
    decreases |s|
  {
    if |s| > 0 {
      DigitRunOfDigits(s[1..]);
    }
  }

  /** The digits of a natural number read back as that number. */
  lemma UnsignedValueOfNatToString(n: nat)
    ensures UnsignedValue(NatToString(n)) == n
  {
    var s := NatToString(n);
    DigitRunOfDigits(s);
    assert s[..|s|] == s;
    DecimalOfNatToString(n);
  }

  /** Printing an integer and reading it back with `getIntValue` gives the integer. */
  lemma IntValueOfIntToString(i: int)
    ensures IntValue(IntToString(i)) == i
  {
    var s := IntToString(i);
    assert !IsSpace(s[0]) && SkipSpace(s) == s;
    if i < 0 {
      assert s[1..] == NatToString(-i);
      UnsignedValueOfNatToString(-i);
    } else {
      assert s[0] != '-';
      UnsignedValueOfNatToString(i);
    }
  }

  // ---------------------------------------------------------------------
  // Case-insensitive comparison and file names

  function ToLower(c: char): char
  {
    if 'A' <= c <= 'Z' then (c as int + 32) as char else c
  }

  predicate EqualsIgnoreCase(a: string, b: string)
  {
    |a| == |b| && forall i :: 0 <= i < |a| ==> ToLower(a[i]) == ToLower(b[i])
  }

  predicate EndsWithIgnoreCase(s: string, suffix: string)
  {
    |suffix| <= |s| && EqualsIgnoreCase(s[|s| - |suffix|..], suffix)
  }

  /**
   * `File::hasFileExtension (ext)` for an extension that starts with '.':
   * the full path ends with it, ignoring case.
   */
  predicate HasFileExtension(path: string, ext: string)
    requires |ext| > 0 && ext[0] == '.'
  {
    EndsWithIgnoreCase(path, ext)
  }

  /** The index just after the last '/' in the path, 0 if there is none. */
  function NameStart(path: string): (k: nat)
    ensures k <= |path|
    ensures k > 0 ==> path[k - 1] == '/'
    ensures forall i :: k <= i < |path| ==> path[i] != '/'
  {
    if |path| == 0 then 0
    else if path[|path| - 1] == '/' then |path|
    else NameStart(path[..|path| - 1])
  }

  /** `File::getFileName ()`: the part of the path after the last separator. */
  function FileName(path: string): (name: string)
    ensures forall i :: 0 <= i < |name| ==> name[i] != '/'
    ensures |name| <= |path| && name == path[|path| - |name|..]
  {
    path[NameStart(path)..]
  }

  /** Does `s` end with `suffix` exactly? */
  predicate EndsWith(s: string, suffix: string)
  {
    |suffix| <= |s| && s[|s| - |suffix|..] == suffix
  }

  // ---------------------------------------------------------------------
  // Path order

  /** `File::operator<`: the full paths compared character by character, a prefix first. */
  predicate PathLess(a: string, b: string)
  {
    if |a| == 0 then |b| > 0
    else if |b| == 0 then false
    else if a[0] != b[0] then a[0] < b[0]
    else PathLess(a[1..], b[1..])
  }

  /** No path is before itself, and of two different paths exactly one comes first. */
  lemma {:induction false} PathLessStrictTotal(a: string, b: string)
    ensures !PathLess(a, a)
    ensures a != b ==> (PathLess(a, b) || PathLess(b, a))
    ensures !(PathLess(a, b) && PathLess(b, a))
  {
    if |a| > 0 {
      PathLessStrictTotal(a[1..], a[1..]);
    }
    if |a| > 0 && |b| > 0 && a[0] == b[0] {
      PathLessStrictTotal(a[1..], b[1..]);
      if a != b {
        assert a == [a[0]] + a[1..] && b == [b[0]] + b[1..];
      }
    }
  }

  /** The path order is transitive. */
  lemma {:induction false} PathLessTransitive(a: string, b: string, c: string)
    requires PathLess(a, b) && PathLess(b, c)
    ensures PathLess(a, c)
  {
    if |a| > 0 && |b| > 0 && |c| > 0 && a[0] == b[0] && b[0] == c[0] {
      PathLessTransitive(a[1..], b[1..], c[1..]);
    }
  }
}
