/** Character classes and string helpers with JavaScript's meaning:
    `\d` (ASCII digits only, as in a regular expression without the `u` flag),
    `\s` and `String.prototype.trim` (the same whitespace set), ASCII case
    folding, substring search and decimal printing of integers. */
module Text {

  predicate IsDigit(c: char) {
    '0' <= c <= '9'
  }

  /** The characters matched by `\s` and removed by `trim()`: the ECMAScript
      WhiteSpace and LineTerminator code points. */
  predicate IsSpace(c: char) {
    || c == '\t' || c == '\n' || c == '\U{000B}' || c == '\U{000C}' || c == '\r'
    || c == ' ' || c == '\U{00A0}' || c == '\U{1680}'
    || ('\U{2000}' <= c <= '\U{200A}')
    || c == '\U{2028}' || c == '\U{2029}' || c == '\U{202F}' || c == '\U{205F}'
    || c == '\U{3000}' || c == '\U{FEFF}'
  }

  function LowerAscii(c: char): char {
    if 'A' <= c <= 'Z' then (c as int + 32) as char else c
  }

  /** `toLowerCase()` restricted to ASCII letters. */
  function ToLowerAscii(s: string): (r: string)
    ensures |r| == |s|
    ensures forall i | 0 <= i < |s| :: r[i] == LowerAscii(s[i])
  {
    seq(|s|, i requires 0 <= i < |s| => LowerAscii(s[i]))
  }

  /** `s.includes(sub)`: `sub` occurs in `s` at some position. */
  predicate Contains(s: string, sub: string)
    decreases |s|
  {
    sub <= s || (|s| > 0 && Contains(s[1..], sub))
  }

  lemma {:induction false} ContainsInSuffix(s: string, k: nat, sub: string)
    requires k <= |s| && Contains(s[k..], sub)
    ensures Contains(s, sub)
    decreases k
  {
    if k > 0 {
      assert s[1..][k - 1..] == s[k..];
      ContainsInSuffix(s[1..], k - 1, sub);
    } else {
      assert s[k..] == s;
    }
  }

  /** A longer word that ends with `tail` contains `tail` wherever it occurs. */
  lemma {:induction false} ContainsTailOf(s: string, word: string, tail: string)
    requires Contains(s, word)
    requires |tail| <= |word| && word[|word| - |tail|..] == tail
    ensures Contains(s, tail)
    decreases |s|
  {
    if word <= s {
      var k := |word| - |tail|;
      var rest := s[k..];
      assert word == s[..|word|];
      assert tail == rest[..|tail|] by {
        assert rest[..|tail|] == s[k..|word|];
        assert word[k..] == s[k..|word|];
      }
      assert Contains(rest, tail);
      ContainsInSuffix(s, k, tail);
    } else {
      assert |s| > 0 && Contains(s[1..], word);
      ContainsTailOf(s[1..], word, tail);
      ContainsInSuffix(s, 1, tail);
    }
  }

  /** The character classes the regular expressions here skip over. */
  datatype CharClass = Digit | NonDigit | Space

  predicate InClass(c: char, cls: CharClass) {
    match cls
    case Digit => IsDigit(c)
    case NonDigit => !IsDigit(c)
    case Space => IsSpace(c)
  }

  /** The end of the longest run of characters of class `cls` that starts at `i`. */
  function SkipWhile(s: string, i: nat, cls: CharClass): (j: nat)
    requires i <= |s|
    ensures i <= j <= |s|
    ensures forall k | i <= k < j :: InClass(s[k], cls)
    ensures j == |s| || !InClass(s[j], cls)
    decreases |s| - i
  {
    if i < |s| && InClass(s[i], cls) then SkipWhile(s, i + 1, cls) else i
  }

  /** A run is maximal at exactly one place: `SkipWhile` stops at any `j`
      that ends a run of class `cls` begun at `i`. */
  lemma {:induction false} SkipWhileStopsAt(s: string, i: nat, j: nat, cls: CharClass)
    requires i <= j <= |s|
    requires forall k | i <= k < j :: InClass(s[k], cls)
    requires j == |s| || !InClass(s[j], cls)
    ensures SkipWhile(s, i, cls) == j
    decreases j - i
  {
    if i < j {
      SkipWhileStopsAt(s, i + 1, j, cls);
    }
  }

  predicate AllDigits(s: string) {
    forall i | 0 <= i < |s| :: IsDigit(s[i])
  }

  /** The value of a run of decimal digits, as `parseInt` reads it. */
  function DigitsValue(s: string): nat
    requires AllDigits(s)
    decreases |s|
  {
    if s == [] then 0 else DigitsValue(s[..|s| - 1]) * 10 + (s[|s| - 1] as int - '0' as int)
  }

  function DigitChar(d: nat): (c: char)
    requires d < 10
    ensures IsDigit(c) && c as int - '0' as int == d
  {
    ('0' as int + d) as char
  }

  /** The decimal text of a natural number: digits only, no leading zero,
      and reading it back gives the number. */
  function NatToString(n: nat): (s: string)
    ensures |s| >= 1 && AllDigits(s)
    ensures |s| == 1 || s[0] != '0'
    ensures DigitsValue(s) == n
    decreases n
  {
    if n < 10 then [DigitChar(n)]
    else
      var prefix := NatToString(n / 10);
      var s := prefix + [DigitChar(n % 10)];
      assert s[..|s| - 1] == prefix;
      s
  }

  /** `n.toString()` for an integer-valued number. */
  function IntToString(n: int): (s: string)
    ensures |s| >= 1
    ensures n >= 0 <==> IsDigit(s[0])
  {
    if n < 0 then "-" + NatToString(-n) else NatToString(n)
  }

  /** Different integers print differently, so comparing decimal texts
      compares the numbers. */
  lemma {:induction false} IntToStringInjective(a: int, b: int)
    requires IntToString(a) == IntToString(b)
    ensures a == b
  {
    if a < 0 && b < 0 {
      assert NatToString(-a) == IntToString(a)[1..] == IntToString(b)[1..] == NatToString(-b);
    } else if a >= 0 && b >= 0 {
      assert DigitsValue(NatToString(a)) == a && DigitsValue(NatToString(b)) == b;
    }
  }

  /** The start of the longest run of characters of class `cls` that ends at `j`. */
  function SkipBackWhile(s: string, j: nat, cls: CharClass): (i: nat)
    requires j <= |s|
    ensures i <= j
    ensures forall k | i <= k < j :: InClass(s[k], cls)
    ensures i == 0 || !InClass(s[i - 1], cls)
    decreases j
  {
    if j > 0 && InClass(s[j - 1], cls) then SkipBackWhile(s, j - 1, cls) else j
  }

  /** `SkipBackWhile` stops at any `i` that begins a run of class `cls`
      ending at `j`. */
  lemma {:induction false} SkipBackWhileStopsAt(s: string, i: nat, j: nat, cls: CharClass)
    requires i <= j <= |s|
    requires forall k | i <= k < j :: InClass(s[k], cls)
    requires i == 0 || !InClass(s[i - 1], cls)
    ensures SkipBackWhile(s, j, cls) == i
    decreases j - i
  {
    if i < j {
      SkipBackWhileStopsAt(s, i, j - 1, cls);
    }
  }

  /** `s.trim()`: drop the whitespace at both ends. */
  function Trim(s: string): (r: string)
    ensures r == [] || (!IsSpace(r[0]) && !IsSpace(r[|r| - 1]))
    ensures exists i, j | 0 <= i <= j <= |s| ::
              && r == s[i..j]
              && (forall k | 0 <= k < i :: IsSpace(s[k]))
              && (forall k | j <= k < |s| :: IsSpace(s[k]))
  {
    var i := SkipWhile(s, 0, Space);
    var j := SkipBackWhile(s, |s|, Space);
    if j <= i then s[i..i] else s[i..j]
  }

  /** Trimming what follows position `e` leaves a piece of the text after
      `e` with only whitespace around it. */
  lemma TrimOfSuffix(s: string, e: nat)
    requires e <= |s|
    ensures exists i, j | e <= i <= j <= |s| ::
      && Trim(s[e..]) == s[i..j]
      && (forall k | e <= k < i :: IsSpace(s[k]))
      && (forall k | j <= k < |s| :: IsSpace(s[k]))
  {
    var t := s[e..];
    var i := SkipWhile(t, 0, Space);
    var j := SkipBackWhile(t, |t|, Space);
    var j' := if j <= i then i else j;
    assert Trim(t) == t[i..j'];
    assert t[i..j'] == s[e + i..e + j'];
    forall k | e <= k < e + i ensures IsSpace(s[k]) {
      assert s[k] == t[k - e] && InClass(t[k - e], Space);
    }
    forall k | e + j' <= k < |s| ensures IsSpace(s[k]) {
      assert s[k] == t[k - e] && InClass(t[k - e], Space);
    }
    assert e <= e + i <= e + j' <= |s| && Trim(t) == s[e + i..e + j'];
  }

  /** Trimming a string with no whitespace at either end changes nothing. */
  lemma TrimKeepsUnpadded(s: string)
    requires s != [] && !IsSpace(s[0]) && !IsSpace(s[|s| - 1])
    ensures Trim(s) == s
  {
    SkipWhileStopsAt(s, 0, 0, Space);
    SkipBackWhileStopsAt(s, |s|, |s|, Space);
    assert s[0..|s|] == s;
  }
}
