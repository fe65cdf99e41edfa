/** The parts of Python's `str` and `re` behaviour that the core relies on, over `seq<char>`. */
module Text {
  import opened Wrappers

  /** Python's `str.isspace()` on one character (the Unicode White_Space code points plus the
      four information separators that Python also counts). */
  predicate IsSpace(c: char) {
    || c == ' ' || c == '\t' || c == '\n' || c == '\r' || c == '\U{000B}' || c == '\U{000C}'
    || ('\U{001C}' <= c <= '\U{001F}') || c == '\U{0085}' || c == '\U{00A0}' || c == '\U{1680}'
    || ('\U{2000}' <= c <= '\U{200A}') || c == '\U{2028}' || c == '\U{2029}' || c == '\U{202F}'
    || c == '\U{205F}' || c == '\U{3000}'
  }

  /** U+00A0 NO-BREAK SPACE, written `'\xa0'` in the source. */
  const Nbsp: char := '\U{00A0}'

  predicate AllSpace(s: string) {
    forall i :: 0 <= i < |s| ==> IsSpace(s[i])
  }

  /** `str.lstrip()`: drops the whitespace prefix. */
  function TrimStart(s: string): (r: string)
    ensures |r| <= |s| && r == s[|s| - |r|..]
    ensures AllSpace(s[..|s| - |r|])
    ensures r == [] || !IsSpace(r[0])
    decreases |s|
  {
    if s != [] && IsSpace(s[0]) then
      var r := TrimStart(s[1..]);
      assert s[..|s| - |r|] == [s[0]] + s[1..][..|s| - 1 - |r|];
      r
    else s
  }

  /** `str.rstrip()`: drops the whitespace suffix. */
  function TrimEnd(s: string): (r: string)
    ensures |r| <= |s| && r == s[..|r|]
    ensures AllSpace(s[|r|..])
    ensures r == [] || !IsSpace(r[|r| - 1])
    decreases |s|
  {
    if s != [] && IsSpace(s[|s| - 1]) then
      var r := TrimEnd(s[..|s| - 1]);
      assert s[|r|..] == s[..|s| - 1][|r|..] + [s[|s| - 1]];
      r
    else s
  }

  /** Where `Strip(s)` starts inside `s`. */
  function StripOffset(s: string): nat
    ensures StripOffset(s) <= |s|
  {
    |s| - |TrimStart(s)|
  }

  /** `str.strip()` with no argument: the slice of `s` between a whitespace-only prefix and a
      whitespace-only suffix, beginning and ending with a non-whitespace character. */
  function Strip(s: string): (r: string)
    ensures StripOffset(s) + |r| <= |s| && r == s[StripOffset(s)..StripOffset(s) + |r|]
    ensures r == [] || (!IsSpace(r[0]) && !IsSpace(r[|r| - 1]))
  {
    TrimEnd(TrimStart(s))
  }

  /** What `Strip` cuts off on either side is whitespace. */
  lemma StripMargins(s: string)
    ensures AllSpace(s[..StripOffset(s)]) && AllSpace(s[StripOffset(s) + |Strip(s)|..])
  {
    var t := TrimStart(s);
    assert s[StripOffset(s) + |Strip(s)|..] == t[|Strip(s)|..];
  }

  /** The non-whitespace characters of `s`, in order. */
  function NonSpace(s: string): string
    decreases |s|
  {
    if s == [] then [] else (if IsSpace(s[0]) then [] else [s[0]]) + NonSpace(s[1..])
  }

  lemma {:induction false} NonSpaceAppend(a: string, b: string)
    ensures NonSpace(a + b) == NonSpace(a) + NonSpace(b)
    decreases |a|
  {
    if a == [] {
      assert a + b == b;
    } else {
      var ab := a + b;
      assert ab[0] == a[0] && ab[1..] == a[1..] + b;
      NonSpaceAppend(a[1..], b);
      var head := if IsSpace(a[0]) then [] else [a[0]];
      assert NonSpace(ab) == head + NonSpace(a[1..] + b);
      assert NonSpace(a) == head + NonSpace(a[1..]);
      assert head + (NonSpace(a[1..]) + NonSpace(b)) == (head + NonSpace(a[1..])) + NonSpace(b);
    }
  }

  /** A string has no non-whitespace character exactly when it is all whitespace. */
  lemma {:induction false} NonSpaceEmpty(s: string)
    ensures NonSpace(s) == [] <==> AllSpace(s)
    decreases |s|
  {
    if s != [] {
      NonSpaceEmpty(s[1..]);
      if AllSpace(s[1..]) && IsSpace(s[0]) {
        forall i | 0 <= i < |s| ensures IsSpace(s[i]) {
          if i > 0 { assert s[i] == s[1..][i - 1]; }
        }
      }
    }
  }

  lemma TrimStartKeepsNonSpace(s: string)
    ensures NonSpace(TrimStart(s)) == NonSpace(s)
  {
    var k := |s| - |TrimStart(s)|;
    assert s == s[..k] + TrimStart(s);
    NonSpaceAppend(s[..k], TrimStart(s));
    NonSpaceEmpty(s[..k]);
  }

  lemma TrimEndKeepsNonSpace(s: string)
    ensures NonSpace(TrimEnd(s)) == NonSpace(s)
  {
    var k := |TrimEnd(s)|;
    assert s == TrimEnd(s) + s[k..];
    NonSpaceAppend(TrimEnd(s), s[k..]);
    NonSpaceEmpty(s[k..]);
  }

  /** Stripping removes whitespace only. */
  lemma StripKeepsNonSpace(s: string)
    ensures NonSpace(Strip(s)) == NonSpace(s)
  {
    TrimStartKeepsNonSpace(s);
    TrimEndKeepsNonSpace(TrimStart(s));
  }

  /** A string without surrounding whitespace is its own strip. */
  lemma StripIdentity(s: string)
    requires s == [] || (!IsSpace(s[0]) && !IsSpace(s[|s| - 1]))
    ensures Strip(s) == s
  {
    if s != [] {
      assert TrimStart(s) == s;
      assert TrimEnd(s) == s;
    }
  }

  /** The strip of a string is empty exactly when the string is all whitespace. */
  lemma StripEmpty(s: string)
    ensures Strip(s) == [] <==> AllSpace(s)
  {
    StripKeepsNonSpace(s);
    NonSpaceEmpty(s);
    NonSpaceEmpty(Strip(s));
  }

  /** Python's `prefix == s[:len(prefix)]`. */
  predicate StartsWith(s: string, prefix: string) {
    |prefix| <= |s| && s[..|prefix|] == prefix
  }

  /** Python's substring test `pattern in s`. */
  predicate Contains(s: string, pattern: string)
    decreases |s|
  {
    StartsWith(s, pattern) || (s != [] && Contains(s[1..], pattern))
  }

  /** `pattern` occurs in `s` at position `i`. */
  predicate OccursAt(s: string, pattern: string, i: nat) {
    i + |pattern| <= |s| && s[i..i + |pattern|] == pattern
  }

  /** `Contains` holds exactly when the pattern occurs at some position. */
  lemma {:induction false} ContainsIff(s: string, pattern: string)
    ensures Contains(s, pattern) <==> exists i: nat :: OccursAt(s, pattern, i)
    decreases |s|
  {
    if StartsWith(s, pattern) {
      assert OccursAt(s, pattern, 0);
    } else if s != [] {
      ContainsIff(s[1..], pattern);
      if Contains(s[1..], pattern) {
        var i: nat :| OccursAt(s[1..], pattern, i);
        assert s[i + 1..i + 1 + |pattern|] == s[1..][i..i + |pattern|];
        assert OccursAt(s, pattern, i + 1);
      }
      if i: nat :| OccursAt(s, pattern, i) {
        assert i > 0;
        assert s[1..][i - 1..i - 1 + |pattern|] == s[i..i + |pattern|];
        assert OccursAt(s[1..], pattern, i - 1);
      }
    }
  }

  /** A pattern found at a known position is contained. */
  lemma ContainsAt(s: string, pattern: string, i: nat)
    requires OccursAt(s, pattern, i)
    ensures Contains(s, pattern)
  {
    ContainsIff(s, pattern);
  }

  /** A string contains its prefixes. */
  lemma ContainsPrefix(pattern: string, rest: string)
    ensures Contains(pattern + rest, pattern)
  {
    assert (pattern + rest)[..|pattern|] == pattern;
  }

  /** Whatever a string contains, so does any extension of it to the left. */
  lemma ContainsExtend(a: string, s: string, pattern: string)
    requires Contains(s, pattern)
    ensures Contains(a + s, pattern)
  {
    ContainsIff(s, pattern);
    var i: nat :| OccursAt(s, pattern, i);
    assert (a + s)[|a| + i..|a| + i + |pattern|] == s[i..i + |pattern|];
    ContainsAt(a + s, pattern, |a| + i);
  }

  /** `str.lower()` on the ASCII letters. */
  function LowerChar(c: char): char {
    if 'A' <= c <= 'Z' then (c as int + 32) as char else c
  }

  function Lower(s: string): (r: string)
    ensures |r| == |s| && forall i :: 0 <= i < |s| ==> r[i] == LowerChar(s[i])
  {
    seq(|s|, i requires 0 <= i < |s| => LowerChar(s[i]))
  }

  /** `s.replace(a, b)` for single characters. */
  function ReplaceChar(s: string, a: char, b: char): (r: string)
    ensures |r| == |s| && forall i :: 0 <= i < |s| ==> r[i] == (if s[i] == a then b else s[i])
  {
    seq(|s|, i requires 0 <= i < |s| => if s[i] == a then b else s[i])
  }

  /** Replacing one character by another leaves no occurrence of it. */
  lemma ReplaceCharRemoves(s: string, a: char, b: char)
    requires a != b
    ensures a !in ReplaceChar(s, a, b)
  {
    var r := ReplaceChar(s, a, b);
    forall i | 0 <= i < |r| ensures r[i] != a {
    }
  }

  /** Replacing one whitespace character by another keeps the non-whitespace characters. */
  lemma {:induction false} ReplaceSpaceKeepsNonSpace(s: string, a: char, b: char)
    requires IsSpace(a) && IsSpace(b)
    ensures NonSpace(ReplaceChar(s, a, b)) == NonSpace(s)
    decreases |s|
  {
    if s != [] {
      assert ReplaceChar(s, a, b)[1..] == ReplaceChar(s[1..], a, b);
      ReplaceSpaceKeepsNonSpace(s[1..], a, b);
    }
  }

  /** No three consecutive newlines. */
  predicate NoNewlineRun3(s: string) {
    forall i :: 0 <= i < |s| - 2 ==> !(s[i] == '\n' && s[i + 1] == '\n' && s[i + 2] == '\n')
  }

  lemma NoNewlineRun3Slice(s: string, a: nat, b: nat)
    requires a <= b <= |s| && NoNewlineRun3(s)
    ensures NoNewlineRun3(s[a..b])
  {
    var t := s[a..b];
    forall i | 0 <= i < |t| - 2 ensures !(t[i] == '\n' && t[i + 1] == '\n' && t[i + 2] == '\n') {
      assert t[i] == s[a + i] && t[i + 1] == s[a + i + 1] && t[i + 2] == s[a + i + 2];
    }
  }

  /** The number of newlines `s` starts with. */
  function NewlineRun(s: string): (n: nat)
    ensures n <= |s| && (forall i :: 0 <= i < n ==> s[i] == '\n') && (n < |s| ==> s[n] != '\n')
    decreases |s|
  {
    if s != [] && s[0] == '\n' then 1 + NewlineRun(s[1..]) else 0
  }

  /** `re.sub(r'\n{3,}', '\n\n', s)`: every maximal run of three or more newlines becomes two.
      The result keeps every character it has from `s`, and starts as `s` does when `s` does
      not start with a newline. */
  function CollapseNewlines(s: string): (r: string)
    ensures forall c :: c in r ==> c in s
    ensures s != [] && s[0] != '\n' ==> r != [] && r[0] == s[0]
    decreases |s|
  {
    if s == [] then []
    else if s[0] != '\n' then [s[0]] + CollapseNewlines(s[1..])
    else
      var n := NewlineRun(s);
      (if n >= 3 then "\n\n" else s[..n]) + CollapseNewlines(s[n..])
  }

  /** After the substitution no run of three newlines is left. */
  lemma {:induction false} CollapseNewlinesNoRun3(s: string)
    ensures NoNewlineRun3(CollapseNewlines(s))
    decreases |s|
  {
    if s == [] {
    } else if s[0] != '\n' {
      CollapseNewlinesNoRun3(s[1..]);
      var rest := CollapseNewlines(s[1..]);
      var r := [s[0]] + rest;
      forall i | 0 <= i < |r| - 2 ensures !(r[i] == '\n' && r[i + 1] == '\n' && r[i + 2] == '\n') {
        if i > 0 { assert r[i] == rest[i - 1] && r[i + 1] == rest[i] && r[i + 2] == rest[i + 1]; }
      }
    } else {
      var n := NewlineRun(s);
      CollapseNewlinesNoRun3(s[n..]);
      var head: string := if n >= 3 then "\n\n" else s[..n];
      var rest := CollapseNewlines(s[n..]);
      assert |head| <= 2;
      assert rest != [] ==> rest[0] != '\n';
      var r := head + rest;
      forall i | 0 <= i < |r| - 2 ensures !(r[i] == '\n' && r[i + 1] == '\n' && r[i + 2] == '\n') {
        if i >= |head| {
          assert r[i] == rest[i - |head|] && r[i + 1] == rest[i - |head| + 1] && r[i + 2] == rest[i - |head| + 2];
        } else {
          assert r[|head|] == rest[0];
        }
      }
    }
  }

  /** Text with no run of three newlines is left as it is. */
  lemma {:induction false} CollapseNewlinesIdentity(s: string)
    requires NoNewlineRun3(s)
    ensures CollapseNewlines(s) == s
    decreases |s|
  {
    if s == [] {
    } else if s[0] != '\n' {
      NoNewlineRun3Slice(s, 1, |s|);
      CollapseNewlinesIdentity(s[1..]);
    } else {
      var n := NewlineRun(s);
      if |s| > 2 {
        assert !(s[0] == '\n' && s[1] == '\n' && s[2] == '\n');
      }
      NoNewlineRun3Slice(s, n, |s|);
      CollapseNewlinesIdentity(s[n..]);
      assert s == s[..n] + s[n..];
    }
  }

  /** Newlines are whitespace, so the substitution keeps the non-whitespace characters. */
  lemma {:induction false} CollapseNewlinesKeepsNonSpace(s: string)
    ensures NonSpace(CollapseNewlines(s)) == NonSpace(s)
    decreases |s|
  {
    if s == [] {
    } else if s[0] != '\n' {
      CollapseNewlinesKeepsNonSpace(s[1..]);
      NonSpaceAppend([s[0]], CollapseNewlines(s[1..]));
    } else {
      var n := NewlineRun(s);
      var head: string := if n >= 3 then "\n\n" else s[..n];
      CollapseNewlinesKeepsNonSpace(s[n..]);
      NonSpaceAppend(head, CollapseNewlines(s[n..]));
      NonSpaceAppend(s[..n], s[n..]);
      assert s == s[..n] + s[n..];
      assert AllSpace(head) && AllSpace(s[..n]);
      NonSpaceEmpty(head);
      NonSpaceEmpty(s[..n]);
    }
  }

  predicate IsDigit(c: char) {
    '0' <= c <= '9'
  }

  predicate AllDigits(s: string) {
    forall i :: 0 <= i < |s| ==> IsDigit(s[i])
  }

  function DigitChar(d: nat): (c: char)
    requires d < 10
    ensures IsDigit(c) && c as int - '0' as int == d
  {
    ('0' as int + d) as char
  }

  /** `str(n)` for a natural number: its decimal digits, without leading zeros. */
  function NatToString(n: nat): (s: string)
    ensures s != [] && AllDigits(s)
    decreases n
  {
    if n < 10 then [DigitChar(n)] else NatToString(n / 10) + [DigitChar(n % 10)]
  }

  /** `str(i)` for an integer. */
  function IntToString(i: int): (s: string)
    ensures s != []
  {
    if i < 0 then "-" + NatToString(-i) else NatToString(i)
  }

  /** The value of a string of decimal digits. */
  function DigitsValue(s: string): nat
    requires AllDigits(s)
    decreases |s|
  {
    if s == [] then 0 else 10 * DigitsValue(s[..|s| - 1]) + (s[|s| - 1] as int - '0' as int)
  }

  /** `int(s)` for an optional '-' followed by decimal digits; None for anything else. */
  function ParseInt(s: string): Option<int> {
    if |s| > 1 && s[0] == '-' && AllDigits(s[1..]) then
      var magnitude: int := DigitsValue(s[1..]);
      Some(-magnitude)
    else if s != [] && AllDigits(s) then
      var value: int := DigitsValue(s);
      Some(value)
    else None
  }

  lemma {:induction false} NatToStringValue(n: nat)
    ensures DigitsValue(NatToString(n)) == n
    decreases n
  {
    if n >= 10 {
      var s := NatToString(n);
      NatToStringValue(n / 10);
      assert s[..|s| - 1] == NatToString(n / 10);
    }
  }

  /** Reading back the decimal text of an integer gives the integer. */
  lemma IntToStringRoundTrip(i: int)
    ensures ParseInt(IntToString(i)) == Some(i)
  {
    if i < 0 {
      var s := IntToString(i);
      assert s[1..] == NatToString(-i);
      NatToStringValue(-i);
    } else {
      NatToStringValue(i);
    }
  }
}
