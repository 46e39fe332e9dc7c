/** String helpers with the meaning of the Python str methods the bot uses (ASCII letters only). */
module Text {

  predicate IsAsciiLower(c: char) { 'a' <= c <= 'z' }

  predicate IsAsciiUpper(c: char) { 'A' <= c <= 'Z' }

  function UpperChar(c: char): (r: char)
    ensures !IsAsciiLower(r)
    ensures IsAsciiLower(c) ==> IsAsciiUpper(r)
    ensures !IsAsciiLower(c) ==> r == c
  {
    if IsAsciiLower(c) then (c as int - 32) as char else c
  }

  function LowerChar(c: char): (r: char)
    ensures !IsAsciiUpper(r)
    ensures IsAsciiUpper(c) ==> IsAsciiLower(r)
    ensures !IsAsciiUpper(c) ==> r == c
  {
    if IsAsciiUpper(c) then (c as int + 32) as char else c
  }

  /** `s.upper()` */
  function Upper(s: string): (r: string)
    ensures |r| == |s|
    ensures forall i :: 0 <= i < |s| ==> r[i] == UpperChar(s[i])
  {
    seq(|s|, i requires 0 <= i < |s| => UpperChar(s[i]))
  }

  /** `s.lower()` */
  function Lower(s: string): (r: string)
    ensures |r| == |s|
    ensures forall i :: 0 <= i < |s| ==> r[i] == LowerChar(s[i])
  {
    seq(|s|, i requires 0 <= i < |s| => LowerChar(s[i]))
  }

  predicate HasNoUpper(s: string) { forall i :: 0 <= i < |s| ==> !IsAsciiUpper(s[i]) }

  predicate StartsWith(s: string, prefix: string) { |prefix| <= |s| && s[..|prefix|] == prefix }

  /** `s.endswith(suffix)` */
  predicate EndsWith(s: string, suffix: string) { |suffix| <= |s| && s[|s| - |suffix|..] == suffix }

  /** `sub in s` */
  predicate Contains(s: string, sub: string)
    decreases |s|
  {
    StartsWith(s, sub) || (|s| > 0 && Contains(s[1..], sub))
  }

  /** `s.replace(pat, rep)`: every non-overlapping occurrence, scanning left to right. */
  function Replace(s: string, pat: string, rep: string): (r: string)
    requires |pat| > 0
    decreases |s|
  {
    if |s| < |pat| then s
    else if s[..|pat|] == pat then rep + Replace(s[|pat|..], pat, rep)
    else [s[0]] + Replace(s[1..], pat, rep)
  }

  /** `sep.join(parts)` */
  function Join(sep: string, parts: seq<string>): string
  {
    if |parts| == 0 then ""
    else if |parts| == 1 then parts[0]
    else parts[0] + sep + Join(sep, parts[1..])
  }

  /** The characters `re.escape` puts a backslash before (Python 3.7 and later). */
  predicate IsRegexSpecial(c: char)
  {
    c in "()[]{}?*+-|^$\\.&~# \t\n\r" || c as int == 11 || c as int == 12
  }

  /** `re.escape(s)` */
  function RegexEscape(s: string): string
  {
    if s == [] then ""
    else (if IsRegexSpecial(s[0]) then ['\\', s[0]] else [s[0]]) + RegexEscape(s[1..])
  }

  /** Every character of a replacement's result comes from the input or from the replacement text. */
  lemma {:induction false} ReplaceChars(s: string, pat: string, rep: string)
    requires |pat| > 0
    ensures forall c :: c in Replace(s, pat, rep) ==> c in s || c in rep
    decreases |s|
  {
    if |s| < |pat| {
    } else if s[..|pat|] == pat {
      ReplaceChars(s[|pat|..], pat, rep);
      forall c | c in Replace(s, pat, rep) ensures c in s || c in rep {
        if c !in rep {
          assert c in Replace(s[|pat|..], pat, rep);
          assert c in s[|pat|..];
        }
      }
    } else {
      ReplaceChars(s[1..], pat, rep);
      forall c | c in Replace(s, pat, rep) ensures c in s || c in rep {
        if c != s[0] && c !in rep {
          assert c in Replace(s[1..], pat, rep);
          assert c in s[1..];
        }
      }
    }
  }

  /** Replacing a single character by text that lacks it removes every occurrence of it. */
  lemma {:induction false} ReplaceRemovesChar(s: string, c: char, rep: string)
    requires c !in rep
    ensures c !in Replace(s, [c], rep)
    decreases |s|
  {
    if |s| >= 1 {
      ReplaceRemovesChar(s[1..], c, rep);
      if s[..1] == [c] {
        assert s[1..] == s[|[c]|..];
      } else {
        assert s[0] != c;
      }
    }
  }

  /** A string without special characters is its own escape: the asset names need no quoting. */
  lemma {:induction false} RegexEscapePlain(s: string)
    requires forall i :: 0 <= i < |s| ==> !IsRegexSpecial(s[i])
    ensures RegexEscape(s) == s
  {
    if s != [] {
      RegexEscapePlain(s[1..]);
      assert s == [s[0]] + s[1..];
    }
  }

  /** `upper()` leaves a string without lower-case letters, and applying it twice changes nothing. */
  lemma UpperIdempotent(s: string)
    ensures forall i :: 0 <= i < |Upper(s)| ==> !IsAsciiLower(Upper(s)[i])
    ensures Upper(Upper(s)) == Upper(s)
  {
  }

  /** A prefix holding no copy of the pattern's first character is passed through unchanged. */
  lemma {:induction false} ReplaceAfterPrefix(a: string, b: string, pat: string, rep: string)
    requires |pat| > 0 && pat[0] !in a
    ensures Replace(a + b, pat, rep) == a + Replace(b, pat, rep)
    decreases |a|
  {
    if a == [] {
      assert a + b == b;
    } else {
      var s := a + b;
      assert a[0] in a;
      if |s| < |pat| {
        assert Replace(b, pat, rep) == b;
      } else {
        assert s[..|pat|][0] == a[0] != pat[0];
        assert s[1..] == a[1..] + b;
        ReplaceAfterPrefix(a[1..], b, pat, rep);
        assert Replace(s, pat, rep) == [a[0]] + Replace(a[1..] + b, pat, rep);
      }
    }
  }

  /** The same prefix cannot hold an occurrence either. */
  lemma {:induction false} ContainsAfterPrefix(a: string, b: string, sub: string)
    requires |sub| > 0 && sub[0] !in a
    ensures Contains(a + b, sub) <==> Contains(b, sub)
    decreases |a|
  {
    if a == [] {
      assert a + b == b;
    } else {
      var s := a + b;
      assert a[0] in a;
      assert !StartsWith(s, sub) by {
        if |sub| <= |s| {
          assert s[..|sub|][0] == a[0] != sub[0];
        }
      }
      assert s[1..] == a[1..] + b;
      ContainsAfterPrefix(a[1..], b, sub);
    }
  }

  /** Deleting a character drops a leading run of it entirely. */
  lemma {:induction false} DeleteLeadingRun(run: string, w: string, c: char)
    requires forall i :: 0 <= i < |run| ==> run[i] == c
    ensures Replace(run + w, [c], "") == Replace(w, [c], "")
    decreases |run|
  {
    if run == [] {
      assert run + w == w;
    } else {
      var s := run + w;
      assert s[..1] == [c];
      assert s[1..] == run[1..] + w;
      DeleteLeadingRun(run[1..], w, c);
    }
  }
}
