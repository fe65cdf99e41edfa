/** `Cleaner.clean` (chat/cleaner.py): a total whitespace and line-ending normaliser. */
module Cleaner {
  import opened Text

  /** `s.replace('\r\n', '\n')`, scanning left to right. */
  function ReplaceCrLf(s: string): string
    decreases |s|
  {
    if |s| >= 2 && s[0] == '\r' && s[1] == '\n' then "\n" + ReplaceCrLf(s[2..])
    else if s == [] then []
    else [s[0]] + ReplaceCrLf(s[1..])
  }

  lemma {:induction false} ReplaceCrLfIdentity(s: string)
    requires '\r' !in s
    ensures ReplaceCrLf(s) == s
    decreases |s|
  {
    if s != [] {
      assert s[0] != '\r';
      ReplaceCrLfIdentity(s[1..]);
    }
  }

  lemma {:induction false} ReplaceCrLfKeepsNonSpace(s: string)
    ensures NonSpace(ReplaceCrLf(s)) == NonSpace(s)
    decreases |s|
  {
    if |s| >= 2 && s[0] == '\r' && s[1] == '\n' {
      ReplaceCrLfKeepsNonSpace(s[2..]);
      NonSpaceAppend("\n", ReplaceCrLf(s[2..]));
      NonSpaceAppend(s[..2], s[2..]);
      assert s == s[..2] + s[2..];
      NonSpaceEmpty("\n");
      NonSpaceEmpty(s[..2]);
    } else if s != [] {
      ReplaceCrLfKeepsNonSpace(s[1..]);
      NonSpaceAppend([s[0]], ReplaceCrLf(s[1..]));
    }
  }

  /** `text.replace('\r\n', '\n').replace('\r', '\n')`. */
  function NormalizeLineEndings(s: string): (r: string)
    ensures '\r' !in r
  {
    ReplaceCharRemoves(ReplaceCrLf(s), '\r', '\n');
    ReplaceChar(ReplaceCrLf(s), '\r', '\n')
  }

  lemma ReplaceCharIdentity(s: string, a: char, b: char)
    requires a !in s
    ensures ReplaceChar(s, a, b) == s
  {
  }

  /** A character matched by the regex class `[ \t]`. */
  predicate IsBlank(c: char) {
    c == ' ' || c == '\t'
  }

  /** The number of blanks `s` starts with. */
  function BlankRun(s: string): (n: nat)
    ensures n <= |s| && (forall i :: 0 <= i < n ==> IsBlank(s[i])) && (n < |s| ==> !IsBlank(s[n]))
    decreases |s|
  {
    if s != [] && IsBlank(s[0]) then 1 + BlankRun(s[1..]) else 0
  }

  /** `re.sub(r'[ \t]+', ' ', s)`: every maximal run of spaces and tabs becomes one space.
      The result is empty only when `s` is, begins with a space where `s` begins with a blank,
      and otherwise begins as `s` does. */
  function CollapseBlanks(s: string): (r: string)
    ensures r == [] <==> s == []
    ensures s != [] && !IsBlank(s[0]) ==> r[0] == s[0]
    ensures s != [] && IsBlank(s[0]) ==> r[0] == ' '
    ensures forall c :: c in r ==> c in s || c == ' '
    decreases |s|
  {
    if s == [] then []
    else if !IsBlank(s[0]) then [s[0]] + CollapseBlanks(s[1..])
    else " " + CollapseBlanks(s[BlankRun(s)..])
  }

  /** No tab and no two adjacent spaces. */
  predicate SingleSpaced(s: string) {
    && (forall i :: 0 <= i < |s| ==> s[i] != '\t')
    && (forall i :: 0 <= i < |s| - 1 ==> !(s[i] == ' ' && s[i + 1] == ' '))
  }

  lemma SingleSpacedSlice(s: string, a: nat, b: nat)
    requires a <= b <= |s| && SingleSpaced(s)
    ensures SingleSpaced(s[a..b])
  {
    var t := s[a..b];
    forall i | 0 <= i < |t| - 1 ensures !(t[i] == ' ' && t[i + 1] == ' ') {
      assert t[i] == s[a + i] && t[i + 1] == s[a + i + 1];
    }
  }

  lemma {:induction false} CollapseBlanksSingleSpaced(s: string)
    ensures SingleSpaced(CollapseBlanks(s))
    decreases |s|
  {
    if s != [] {
      var k := if IsBlank(s[0]) then BlankRun(s) else 1;
      var head: string := if IsBlank(s[0]) then " " else [s[0]];
      var rest := CollapseBlanks(s[k..]);
      CollapseBlanksSingleSpaced(s[k..]);
      var r := head + rest;
      assert r == CollapseBlanks(s);
      assert rest != [] && IsBlank(s[0]) ==> !IsBlank(rest[0]);
      forall i | 0 <= i < |r| ensures r[i] != '\t' {
        if i > 0 { assert r[i] == rest[i - 1]; }
      }
      forall i | 0 <= i < |r| - 1 ensures !(r[i] == ' ' && r[i + 1] == ' ') {
        if i > 0 { assert r[i] == rest[i - 1] && r[i + 1] == rest[i]; }
        else { assert r[1] == rest[0]; }
      }
    }
  }

  /** Collapsing blanks never joins newlines into a longer run. */
  lemma {:induction false} CollapseBlanksKeepsNoRun3(s: string)
    requires NoNewlineRun3(s)
    ensures NoNewlineRun3(CollapseBlanks(s))
    decreases |s|
  {
    if s != [] {
      var k := if IsBlank(s[0]) then BlankRun(s) else 1;
      var head: string := if IsBlank(s[0]) then " " else [s[0]];
      NoNewlineRun3Slice(s, k, |s|);
      CollapseBlanksKeepsNoRun3(s[k..]);
      var rest := CollapseBlanks(s[k..]);
      var r := head + rest;
      assert r == CollapseBlanks(s);
      forall i | 0 <= i < |r| - 2 ensures !(r[i] == '\n' && r[i + 1] == '\n' && r[i + 2] == '\n') {
        if i > 0 {
          assert r[i] == rest[i - 1] && r[i + 1] == rest[i] && r[i + 2] == rest[i + 1];
        } else if r[0] == '\n' && r[1] == '\n' {
          // here s starts with a newline, k == 1 and s[1] is a newline too
          assert rest[0] == '\n' && s[1] == '\n';
          assert rest == [s[1]] + CollapseBlanks(s[2..]);
          if |s| > 2 {
            assert !(s[0] == '\n' && s[1] == '\n' && s[2] == '\n');
          }
        }
      }
    }
  }

  lemma {:induction false} CollapseBlanksIdentity(s: string)
    requires SingleSpaced(s)
    ensures CollapseBlanks(s) == s
    decreases |s|
  {
    if s != [] {
      SingleSpacedSlice(s, 1, |s|);
      CollapseBlanksIdentity(s[1..]);
      if IsBlank(s[0]) {
        assert s[0] == ' ';
        assert BlankRun(s) == 1;
      }
      assert s == [s[0]] + s[1..];
    }
  }

  lemma {:induction false} CollapseBlanksKeepsNonSpace(s: string)
    ensures NonSpace(CollapseBlanks(s)) == NonSpace(s)
    decreases |s|
  {
    if s != [] {
      var k := if IsBlank(s[0]) then BlankRun(s) else 1;
      var head: string := if IsBlank(s[0]) then " " else [s[0]];
      CollapseBlanksKeepsNonSpace(s[k..]);
      NonSpaceAppend(head, CollapseBlanks(s[k..]));
      if IsBlank(s[0]) {
        assert s == s[..k] + s[k..];
        NonSpaceAppend(s[..k], s[k..]);
        assert AllSpace(s[..k]) && AllSpace(head);
        NonSpaceEmpty(s[..k]);
        NonSpaceEmpty(head);
      }
    }
  }

  /** The normal form `clean` produces: no carriage return, no run of three newlines, no tab,
      no two adjacent spaces, and no whitespace at either end. */
  predicate IsClean(s: string) {
    && '\r' !in s
    && NoNewlineRun3(s)
    && SingleSpaced(s)
    && (s == [] || (!IsSpace(s[0]) && !IsSpace(s[|s| - 1])))
  }

  /** Stripping text that already has no carriage return, no run of three newlines, no tab
      and no double space yields the normal form. */
  lemma StripToNormalForm(c: string)
    requires '\r' !in c && NoNewlineRun3(c) && SingleSpaced(c)
    ensures IsClean(Strip(c))
  {
    StripKeepsNoRun3(c);
    StripKeepsSingleSpaced(c);
    StripKeepsNoCarriageReturn(c);
  }

  lemma StripKeepsNoRun3(c: string)
    requires NoNewlineRun3(c)
    ensures NoNewlineRun3(Strip(c))
  {
    NoNewlineRun3Slice(c, StripOffset(c), StripOffset(c) + |Strip(c)|);
  }

  lemma StripKeepsSingleSpaced(c: string)
    requires SingleSpaced(c)
    ensures SingleSpaced(Strip(c))
  {
    SingleSpacedSlice(c, StripOffset(c), StripOffset(c) + |Strip(c)|);
  }

  lemma StripKeepsNoCarriageReturn(c: string)
    requires '\r' !in c
    ensures '\r' !in Strip(c)
  {
    NoCarriageReturnSlice(c, StripOffset(c), StripOffset(c) + |Strip(c)|);
  }

  lemma NoCarriageReturnSlice(s: string, a: nat, b: nat)
    requires a <= b <= |s| && '\r' !in s
    ensures '\r' !in s[a..b]
  {
    var t := s[a..b];
    forall i | 0 <= i < |t| ensures t[i] != '\r' {
      assert t[i] == s[a + i];
    }
  }

  /** The substitutions of `clean`, before the final strip, leave no carriage return, no run
      of three newlines, no tab and no double space. */
  lemma SubstitutionsNormalize(text: string)
    ensures var c := CollapseBlanks(CollapseNewlines(NormalizeLineEndings(text)));
      '\r' !in c && NoNewlineRun3(c) && SingleSpaced(c)
  {
    var a := NormalizeLineEndings(text);
    var b := CollapseNewlines(a);
    ReplaceCharRemoves(ReplaceCrLf(text), '\r', '\n');
    CollapseNewlinesNoRun3(a);
    CollapseBlanksKeepsNoRun3(b);
    CollapseBlanksSingleSpaced(b);
  }

  /** `Cleaner.clean`: empty input gives ""; otherwise line endings become '\n', runs of three
      or more newlines become two, runs of spaces and tabs become one space, and the result is
      stripped. Whatever the input, the result is in normal form. */
  function Clean(text: string): (r: string)
    ensures IsClean(r)
    ensures text == [] ==> r == []
  {
    if text == [] then []
    else
      var c := CollapseBlanks(CollapseNewlines(NormalizeLineEndings(text)));
      SubstitutionsNormalize(text);
      StripToNormalForm(c);
      Strip(c)
  }

  /** Cleaning changes whitespace only: the non-whitespace characters are kept, in order. */
  lemma CleanKeepsNonSpace(text: string)
    ensures NonSpace(Clean(text)) == NonSpace(text)
  {
    if text != [] {
      var a := NormalizeLineEndings(text);
      var b := CollapseNewlines(a);
      var c := CollapseBlanks(b);
      ReplaceCrLfKeepsNonSpace(text);
      ReplaceSpaceKeepsNonSpace(ReplaceCrLf(text), '\r', '\n');
      CollapseNewlinesKeepsNonSpace(a);
      CollapseBlanksKeepsNonSpace(b);
      StripKeepsNonSpace(c);
    }
  }

  /** Cleaning yields "" exactly when the input is empty or whitespace only. */
  lemma CleanEmptyIff(text: string)
    ensures Clean(text) == [] <==> AllSpace(text)
  {
    CleanKeepsNonSpace(text);
    NonSpaceEmpty(text);
    NonSpaceEmpty(Clean(text));
  }

  /** Text already in normal form is left unchanged. */
  lemma CleanFixesNormalForm(s: string)
    requires IsClean(s)
    ensures Clean(s) == s
  {
    if s != [] {
      ReplaceCrLfIdentity(s);
      ReplaceCharIdentity(s, '\r', '\n');
      CollapseNewlinesIdentity(s);
      CollapseBlanksIdentity(s);
      StripIdentity(s);
    }
  }

  /** `clean` is idempotent. */
  lemma CleanIdempotent(text: string)
    ensures Clean(Clean(text)) == Clean(text)
  {
    CleanFixesNormalForm(Clean(text));
  }
}
