/**
 * String operations of the JavaScript runtime that the core relies on:
 * `Number.prototype.toString` for integers, `Array.prototype.join`,
 * `String.prototype.trim` and `String.prototype.toLowerCase`, each with an
 * inverse or a characterisation that pins down what it computes.
 */
module Text {
  import opened Wrappers

  // ---------------------------------------------------------------------------
  // Decimal numerals
  // ---------------------------------------------------------------------------

  predicate IsDigit(c: char) {
    '0' <= c <= '9'
  }

  predicate AllDigits(s: string) {
    forall i :: 0 <= i < |s| ==> IsDigit(s[i])
  }

  function DigitChar(d: nat): (c: char)
    requires d < 10
    ensures IsDigit(c) && c as int - '0' as int == d
  {
    ('0' as int + d) as char
  }

  function DigitValue(c: char): nat
    requires IsDigit(c)
  {
    c as int - '0' as int
  }

  /** Decimal numeral of a natural number, most significant digit first. */
  function NatToString(n: nat): (s: string)
    ensures |s| > 0 && AllDigits(s)
    decreases n
  {
    if n < 10 then [DigitChar(n)] else NatToString(n / 10) + [DigitChar(n % 10)]
  }

  /** The value of a string of decimal digits ("" reads as 0). */
  function ParseNat(s: string): nat
    requires AllDigits(s)
    decreases |s|
  {
    if s == [] then 0 else ParseNat(s[..|s| - 1]) * 10 + DigitValue(s[|s| - 1])
  }

  lemma {:induction false} ParseNatToString(n: nat)
    ensures ParseNat(NatToString(n)) == n
    decreases n
  {
    if n >= 10 {
      var s := NatToString(n);
      assert s[..|s| - 1] == NatToString(n / 10);
      ParseNatToString(n / 10);
    }
  }

  /** `Number.prototype.toString()` on an integral number. */
  function IntToString(i: int): (s: string)
    ensures |s| > 0
  {
    if i < 0 then "-" + NatToString(-i) else NatToString(i)
  }

  /** Reads an optionally signed decimal numeral; anything else is None. */
  function ParseInt(s: string): Option<int> {
    if |s| > 1 && s[0] == '-' && AllDigits(s[1..]) then Some(-(ParseNat(s[1..]) as int))
    else if |s| > 0 && AllDigits(s) then Some(ParseNat(s))
    else None
  }

  lemma IntToStringRoundTrip(i: int)
    ensures ParseInt(IntToString(i)) == Some(i)
  {
    if i < 0 {
      var s := IntToString(i);
      assert s[1..] == NatToString(-i);
      ParseNatToString(-i);
    } else {
      ParseNatToString(i);
    }
  }

  lemma IntToStringInjective(i: int, j: int)
    ensures IntToString(i) == IntToString(j) <==> i == j
  {
    IntToStringRoundTrip(i);
    IntToStringRoundTrip(j);
  }

  // ---------------------------------------------------------------------------
  // Array.prototype.join and its inverse
  // ---------------------------------------------------------------------------

  /** `parts.join(sep)`: the parts with one separator between neighbours. */
  function Join(parts: seq<string>, sep: char): (s: string)
    decreases |parts|
  {
    if parts == [] then ""
    else if |parts| == 1 then parts[0]
    else parts[0] + [sep] + Join(parts[1..], sep)
  }

  /** Index of the first occurrence of `c` in `s`. */
  function IndexOf(s: string, c: char): (i: nat)
    requires c in s
    ensures i < |s| && s[i] == c && c !in s[..i]
  {
    if s[0] == c then 0 else 1 + IndexOf(s[1..], c)
  }

  /** Splits `s` at every occurrence of `sep` (`String.prototype.split`). */
  function Split(s: string, sep: char): (parts: seq<string>)
    ensures |parts| > 0
    decreases |s|
  {
    if sep !in s then [s]
    else
      var i := IndexOf(s, sep);
      [s[..i]] + Split(s[i + 1..], sep)
  }

  lemma IndexOfAfterPrefix(a: string, b: string, sep: char)
    requires sep !in a
    ensures sep in a + [sep] + b && IndexOf(a + [sep] + b, sep) == |a|
  {
    var s := a + [sep] + b;
    assert s[|a|] == sep;
    var i := IndexOf(s, sep);
    assert forall k :: 0 <= k < |a| ==> s[k] == a[k];
    assert forall k :: 0 <= k < i ==> s[k] != sep by {
      forall k | 0 <= k < i ensures s[k] != sep { assert s[..i][k] == s[k]; }
    }
  }

  /** Splitting at the first separator: the part before it, then the split of the rest. */
  lemma SplitAtFirst(head: string, rest: string, sep: char)
    requires sep !in head
    ensures Split(head + [sep] + rest, sep) == [head] + Split(rest, sep)
  {
    var s := head + [sep] + rest;
    IndexOfAfterPrefix(head, rest, sep);
    assert s[..|head|] == head;
    assert s[|head| + 1..] == rest;
  }

  /** Joining then splitting gives the parts back when no part holds the separator. */
  lemma {:induction false} SplitJoin(parts: seq<string>, sep: char)
    requires |parts| > 0
    requires forall k :: 0 <= k < |parts| ==> sep !in parts[k]
    ensures Split(Join(parts, sep), sep) == parts
    decreases |parts|
  {
    if |parts| == 1 {
      assert sep !in parts[0];
    } else {
      var head := parts[0];
      var tail := parts[1..];
      var rest := Join(tail, sep);
      var s := head + [sep] + rest;
      assert Join(parts, sep) == s;
      assert sep !in head;
      SplitAtFirst(head, rest, sep);
      forall k | 0 <= k < |tail| ensures sep !in tail[k] {
        assert tail[k] == parts[k + 1];
      }
      SplitJoin(tail, sep);
      assert parts == [head] + tail;
    }
  }

  // ---------------------------------------------------------------------------
  // String.prototype.trim
  // ---------------------------------------------------------------------------

  /** ECMAScript WhiteSpace and LineTerminator code points, the ones trim() strips. */
  predicate IsJsWhitespace(c: char) {
    || c == '\t' || c == '\n' || c == '\U{000B}' || c == '\U{000C}' || c == '\r'
    || c == ' ' || c == '\U{00A0}' || c == '\U{1680}'
    || ('\U{2000}' <= c <= '\U{200A}')
    || c == '\U{2028}' || c == '\U{2029}' || c == '\U{202F}' || c == '\U{205F}'
    || c == '\U{3000}' || c == '\U{FEFF}'
  }

  predicate AllWhitespace(s: string) {
    forall i :: 0 <= i < |s| ==> IsJsWhitespace(s[i])
  }

  /** Two blank strings make a blank string. */
  lemma AllWhitespaceConcat(a: string, b: string)
    requires AllWhitespace(a) && AllWhitespace(b)
    ensures AllWhitespace(a + b)
  {
    forall i | 0 <= i < |a + b| ensures IsJsWhitespace((a + b)[i]) {
      if i < |a| { assert (a + b)[i] == a[i]; } else { assert (a + b)[i] == b[i - |a|]; }
    }
  }

  /** Every piece of a blank string is blank. */
  lemma AllWhitespaceSlice(s: string, a: nat, b: nat)
    requires a <= b <= |s| && AllWhitespace(s)
    ensures AllWhitespace(s[a..b])
  {
    forall i | 0 <= i < b - a ensures IsJsWhitespace(s[a..b][i]) {
      assert s[a..b][i] == s[a + i];
    }
  }

  /** Drops the leading whitespace. */
  function TrimStart(s: string): string
    decreases |s|
  {
    if s != [] && IsJsWhitespace(s[0]) then TrimStart(s[1..]) else s
  }

  /** Drops the trailing whitespace. */
  function TrimEnd(s: string): string
    decreases |s|
  {
    if s != [] && IsJsWhitespace(s[|s| - 1]) then TrimEnd(s[..|s| - 1]) else s
  }

  /** `s.trim()`. */
  function Trim(s: string): string {
    TrimEnd(TrimStart(s))
  }

  /** TrimStart stops at the first non-whitespace character. */
  lemma {:induction false} TrimStartAt(s: string, i: nat)
    requires i <= |s| && AllWhitespace(s[..i])
    requires i < |s| ==> !IsJsWhitespace(s[i])
    ensures TrimStart(s) == s[i..]
    decreases i
  {
    if i > 0 {
      assert s[..i][0] == s[0];
      AllWhitespaceSlice(s[..i], 1, i);
      assert s[1..][..i - 1] == s[..i][1..i];
      assert i < |s| ==> s[1..][i - 1] == s[i];
      TrimStartAt(s[1..], i - 1);
      assert s[1..][i - 1..] == s[i..];
    }
  }

  /** TrimEnd stops at the last non-whitespace character. */
  lemma {:induction false} TrimEndAt(s: string, j: nat)
    requires j <= |s| && AllWhitespace(s[j..])
    requires 0 < j ==> !IsJsWhitespace(s[j - 1])
    ensures TrimEnd(s) == s[..j]
    decreases |s| - j
  {
    if j < |s| {
      assert s[j..][|s| - 1 - j] == s[|s| - 1];
      var init := s[..|s| - 1];
      AllWhitespaceSlice(s[j..], 0, |s| - 1 - j);
      assert init[j..] == s[j..][0..|s| - 1 - j];
      assert 0 < j ==> init[j - 1] == s[j - 1];
      TrimEndAt(init, j);
      assert init[..j] == s[..j];
    } else {
      assert s[..j] == s;
    }
  }

  /** What TrimStart drops is a blank prefix ending at a non-whitespace character or at the end. */
  lemma {:induction false} TrimStartShape(s: string) returns (i: nat)
    ensures i <= |s| && AllWhitespace(s[..i]) && (i < |s| ==> !IsJsWhitespace(s[i]))
    ensures TrimStart(s) == s[i..]
    decreases |s|
  {
    if s != [] && IsJsWhitespace(s[0]) {
      var rest := TrimStartShape(s[1..]);
      i := rest + 1;
      assert s[..i] == [s[0]] + s[1..][..rest];
      AllWhitespaceConcat([s[0]], s[1..][..rest]);
      assert i < |s| ==> s[i] == s[1..][rest];
      assert s[1..][rest..] == s[i..];
    } else {
      i := 0;
    }
  }

  /** A blank suffix of all but the last character grows by a blank last character. */
  lemma BlankSuffixGrows(s: string, j: nat)
    requires j < |s| && AllWhitespace(s[..|s| - 1][j..]) && IsJsWhitespace(s[|s| - 1])
    ensures AllWhitespace(s[j..])
  {
    forall k | 0 <= k < |s| - j ensures IsJsWhitespace(s[j..][k]) {
      if k < |s| - 1 - j {
        assert s[j..][k] == s[..|s| - 1][j..][k];
      } else {
        assert s[j..][k] == s[|s| - 1];
      }
    }
  }

  /** What TrimEnd drops is a blank suffix starting after a non-whitespace character or at the start. */
  lemma {:induction false} TrimEndShape(s: string) returns (j: nat)
    ensures j <= |s| && AllWhitespace(s[j..]) && (0 < j ==> !IsJsWhitespace(s[j - 1]))
    ensures TrimEnd(s) == s[..j]
    decreases |s|
  {
    if s != [] && IsJsWhitespace(s[|s| - 1]) {
      var init := s[..|s| - 1];
      j := TrimEndShape(init);
      BlankSuffixGrows(s, j);
      assert 0 < j ==> s[j - 1] == init[j - 1];
      assert init[..j] == s[..j];
    } else {
      j := |s|;
      assert s[..j] == s;
    }
  }

  /** A blank string trims to nothing. */
  lemma TrimOfBlank(s: string)
    requires AllWhitespace(s)
    ensures Trim(s) == ""
  {
    assert s[..|s|] == s;
    TrimStartAt(s, |s|);
  }

  /** A non-empty core between blanks is what trim() keeps. */
  lemma TrimOfCore(s: string, i: nat, j: nat)
    requires i < j <= |s|
    requires AllWhitespace(s[..i]) && AllWhitespace(s[j..])
    requires !IsJsWhitespace(s[i]) && !IsJsWhitespace(s[j - 1])
    ensures Trim(s) == s[i..j]
  {
    TrimStartAt(s, i);
    var t := TrimStart(s);
    var k := j - i;
    assert AllWhitespace(t[k..]) by { assert t[k..] == s[j..]; }
    assert !IsJsWhitespace(t[k - 1]) by { assert t[k - 1] == s[j - 1]; }
    TrimEndAt(t, k);
    assert t[..k] == s[i..j];
  }

  /**
   * Trim is characterised by where the content starts and ends: if `s[i..j]`
   * is surrounded only by whitespace and is empty or starts and ends with a
   * non-whitespace character, it is the trimmed string.
   */
  lemma TrimIsCore(s: string, i: nat, j: nat)
    requires i <= j <= |s|
    requires AllWhitespace(s[..i]) && AllWhitespace(s[j..])
    requires i < j ==> !IsJsWhitespace(s[i]) && !IsJsWhitespace(s[j - 1])
    ensures Trim(s) == s[i..j]
  {
    if i == j {
      AllWhitespaceConcat(s[..j], s[j..]);
      assert s[..j] + s[j..] == s;
      TrimOfBlank(s);
    } else {
      TrimOfCore(s, i, j);
    }
  }

  lemma TrimIdempotent(s: string)
    ensures Trim(Trim(s)) == Trim(s)
  {
    var i := TrimStartShape(s);
    var t := s[i..];
    var j := TrimEndShape(t);
    var c := t[..j];
    assert Trim(s) == c;
    if c == [] {
      TrimOfBlank(c);
    } else {
      assert c[0] == s[i];
      assert c[|c| - 1] == t[j - 1];
      TrimIsCore(c, 0, |c|);
      assert c[0..|c|] == c;
    }
  }

  /** A string that trims to nothing is a blank prefix and a blank suffix. */
  lemma TrimmedEmptyIsBlank(s: string)
    requires Trim(s) == ""
    ensures AllWhitespace(s)
  {
    var i := TrimStartShape(s);
    var t := s[i..];
    var j := TrimEndShape(t);
    assert t[..j] == Trim(s);
    assert t[j..] == t;
    assert s == s[..i] + t;
    AllWhitespaceConcat(s[..i], t);
  }

  lemma TrimEmptyIffBlank(s: string)
    ensures Trim(s) == "" <==> AllWhitespace(s)
  {
    if AllWhitespace(s) {
      TrimOfBlank(s);
    }
    if Trim(s) == "" {
      TrimmedEmptyIsBlank(s);
    }
  }

  // ---------------------------------------------------------------------------
  // String.prototype.toLowerCase (ASCII letters)
  // ---------------------------------------------------------------------------

  function ToLowerChar(c: char): char {
    if 'A' <= c <= 'Z' then (c as int + 32) as char else c
  }

  function ToLower(s: string): (r: string)
    ensures |r| == |s|
    ensures forall i :: 0 <= i < |s| ==> r[i] == ToLowerChar(s[i])
    ensures forall i :: 0 <= i < |r| ==> !('A' <= r[i] <= 'Z')
  {
    if s == [] then [] else [ToLowerChar(s[0])] + ToLower(s[1..])
  }

  /** Names that `toLowerCase()` makes equal. */
  predicate EqualsIgnoringCase(a: string, b: string) {
    ToLower(a) == ToLower(b)
  }

  lemma ToLowerIdempotent(s: string)
    ensures ToLower(ToLower(s)) == ToLower(s)
  {
  }
}
