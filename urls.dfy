/** The parts of Python's `urllib.parse` the crawler and the validator depend on: the scheme and
    the authority (netloc) of `urlsplit`, following section 3.2 of RFC 3986, and removal of the
    fragment (section 3.5 of RFC 3986). */
module Urls {
  import opened Wrappers
  import opened Text

  predicate IsAsciiLetter(c: char) {
    'a' <= c <= 'z' || 'A' <= c <= 'Z'
  }

  /** `urllib.parse.scheme_chars`. */
  predicate IsSchemeChar(c: char) {
    IsAsciiLetter(c) || '0' <= c <= '9' || c == '+' || c == '-' || c == '.'
  }

  /** Python's `s.find(c)`, with `|s|` standing for "not found". */
  function IndexOf(s: string, c: char): (i: nat)
    ensures i <= |s| && (i < |s| ==> s[i] == c)
    ensures forall k :: 0 <= k < i ==> s[k] != c
    decreases |s|
  {
    if s == [] || s[0] == c then 0 else 1 + IndexOf(s[1..], c)
  }

  /** urlsplit takes `s[:i]` before the first ':' as the scheme when it is non-empty, starts with
      an ASCII letter and holds only scheme characters. */
  predicate HasScheme(s: string) {
    var i := IndexOf(s, ':');
    0 < i < |s| && IsAsciiLetter(s[0]) && forall k :: 0 <= k < i ==> IsSchemeChar(s[k])
  }

  /** `urlsplit(s).scheme`: lower-cased; "" when there is none. */
  function Scheme(s: string): (r: string)
    ensures r != [] <==> HasScheme(s)
  {
    if HasScheme(s) then Lower(s[..IndexOf(s, ':')]) else ""
  }

  /** What urlsplit goes on parsing once the scheme and its ':' are taken off. */
  function AfterScheme(s: string): string {
    if HasScheme(s) then s[IndexOf(s, ':') + 1..] else s
  }

  predicate IsAuthorityDelimiter(c: char) {
    c == '/' || c == '?' || c == '#'
  }

  /** The first authority delimiter at or after position `i`, or `|rest|`. */
  function AuthorityEnd(rest: string, i: nat): (e: nat)
    requires i <= |rest|
    ensures i <= e <= |rest| && (e < |rest| ==> IsAuthorityDelimiter(rest[e]))
    ensures forall k :: i <= k < e ==> !IsAuthorityDelimiter(rest[k])
    decreases |rest| - i
  {
    if i == |rest| || IsAuthorityDelimiter(rest[i]) then i else AuthorityEnd(rest, i + 1)
  }

  /** The authority after a leading "//", up to the first '/', '?' or '#'; "" without "//". */
  function Authority(rest: string): (r: string)
    ensures forall c :: c in r ==> !IsAuthorityDelimiter(c)
  {
    if StartsWith(rest, "//") then
      var e := AuthorityEnd(rest, 2);
      assert forall k :: 0 <= k < e - 2 ==> rest[2..e][k] == rest[k + 2];
      rest[2..e]
    else ""
  }

  /** `urlparse(s).netloc`; None where urlparse raises ValueError("Invalid IPv6 URL") because
      the netloc has an opening bracket without a closing one or the other way round. */
  function Netloc(s: string): (r: Option<string>)
    ensures r.Some? ==> ('[' in r.value <==> ']' in r.value)
  {
    var n := Authority(AfterScheme(s));
    if ('[' in n) != (']' in n) then None else Some(n)
  }

  /** The URL with its fragment removed: the part of `s` before its first '#'. */
  function StripFragment(s: string): (r: string)
    ensures '#' !in r
    ensures StartsWith(s, r) && (|r| == |s| || s[|r|] == '#')
  {
    s[..IndexOf(s, '#')]
  }

  /** The authority ends at the first '#' at the latest, so cutting the fragment keeps it. */
  lemma AuthorityStripFragment(rest: string)
    ensures Authority(StripFragment(rest)) == Authority(rest)
  {
    var m := IndexOf(rest, '#');
    var u := StripFragment(rest);
    if StartsWith(rest, "//") {
      assert m >= 2;
      assert u[..2] == rest[..2];
      var e := AuthorityEnd(rest, 2);
      var e' := AuthorityEnd(u, 2);
      assert e <= m;
      forall k | 2 <= k < m ensures u[k] == rest[k] { }
      if e < m {
        assert e' == e;
      } else {
        assert e' == m;
      }
      assert u[2..e'] == rest[2..e];
    } else if m >= 2 {
      assert u[..2] == rest[..2];
    }
  }

  /** Cutting the fragment commutes with taking the scheme off. */
  lemma AfterSchemeStripFragment(s: string)
    ensures AfterScheme(StripFragment(s)) == StripFragment(AfterScheme(s))
  {
    var j := IndexOf(s, '#');
    var t := StripFragment(s);
    var i := IndexOf(s, ':');
    if j == |s| {
      assert t == s;
    } else if i < j {
      assert t[..i] == s[..i];
      assert IndexOf(t, ':') == i;
      assert HasScheme(t) == HasScheme(s);
      if HasScheme(s) {
        var rest := s[i + 1..];
        assert IndexOf(rest, '#') == j - i - 1;
        assert t[i + 1..] == rest[..j - i - 1];
      } else {
        assert IndexOf(s, '#') == j;
      }
    } else {
      assert i > j;
      assert !IsSchemeChar(s[j]);
      assert !HasScheme(s);
      assert IndexOf(t, ':') == |t|;
      assert !HasScheme(t);
    }
  }

  /** A link keeps its netloc when its fragment is removed. */
  lemma NetlocStripFragment(s: string)
    ensures Netloc(StripFragment(s)) == Netloc(s)
  {
    AfterSchemeStripFragment(s);
    AuthorityStripFragment(AfterScheme(s));
  }
}
