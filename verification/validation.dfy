/** The input rules shared by the client pages and the server: the email
    pattern `^[^\s@]+@[^\s@]+\.[^\s@]+$` and the markup-stripping sanitiser. */
module Validation {
  import opened Text
  import opened Common

  /** A character of the class `[^\s@]`. */
  predicate IsEmailChar(c: char)
  {
    !IsWhitespace(c) && c != '@'
  }

  /** A non-empty run `[^\s@]+`. */
  predicate EmailRun(s: string)
  {
    |s| >= 1 && forall k :: 0 <= k < |s| ==> IsEmailChar(s[k])
  }

  /** One way of reading `s` against the pattern: a run, '@' at i, a run,
      '.' at j, and a run. */
  ghost predicate PatternSplit(s: string, i: int, j: int)
  {
    0 < i < j < |s| && s[i] == '@' && s[j] == '.'
    && EmailRun(s[..i]) && EmailRun(s[i + 1..j]) && EmailRun(s[j + 1..])
  }

  /** What it means for the whole string to match the email pattern. */
  ghost predicate MatchesEmailPattern(s: string)
  {
    exists i, j :: PatternSplit(s, i, j)
  }

  /** The domain after the '@' holds a '.' that is neither its first nor its last character. */
  predicate HasInnerDot(d: string)
  {
    exists j :: 0 < j < |d| - 1 && d[j] == '.'
  }

  /** '@' at i, clean runs on both sides of it, and an inner '.' in the domain. */
  predicate SplitsAt(s: string, i: int)
  {
    0 < i < |s| && s[i] == '@' && EmailRun(s[..i]) && EmailRun(s[i + 1..]) && HasInnerDot(s[i + 1..])
  }

  /** `isValidEmail`: no white space, exactly one '@' with something before it,
      and a '.' after the '@' that is neither the first nor the last character
      of the domain. */
  predicate IsValidEmail(s: string)
    ensures IsValidEmail(s) <==> MatchesEmailPattern(s)
  {
    var ok := exists i :: 0 < i < |s| && SplitsAt(s, i);
    EmailSplit(s);
    ok
  }

  /** Splitting the domain at a '.' gives two clean runs exactly when the
      domain is one clean run and the '.' is strictly inside it. */
  lemma {:induction false} DomainSplit(d: string, j: int)
    requires 0 <= j < |d|
    ensures (EmailRun(d[..j]) && d[j] == '.' && EmailRun(d[j + 1..]))
        <==> (EmailRun(d) && 0 < j < |d| - 1 && d[j] == '.')
  {
    var a, b := d[..j], d[j + 1..];
    if EmailRun(a) && d[j] == '.' && EmailRun(b) {
      forall k | 0 <= k < |d|
        ensures IsEmailChar(d[k])
      {
        if k < j {
          assert d[k] == a[k];
        } else if k > j {
          assert d[k] == b[k - j - 1];
        }
      }
    }
    if EmailRun(d) && 0 < j < |d| - 1 && d[j] == '.' {
      forall k | 0 <= k < |a|
        ensures IsEmailChar(a[k])
      {
        assert a[k] == d[k];
      }
      forall k | 0 <= k < |b|
        ensures IsEmailChar(b[k])
      {
        assert b[k] == d[k + j + 1];
      }
    }
  }

  lemma {:induction false} EmailSplit(s: string)
    ensures (exists i :: 0 < i < |s| && SplitsAt(s, i)) <==> MatchesEmailPattern(s)
  {
    if MatchesEmailPattern(s) {
      var i, j :| PatternSplit(s, i, j);
      var d := s[i + 1..];
      assert s[i + 1..j] == d[..j - i - 1];
      assert s[j + 1..] == d[j - i..];
      DomainSplit(d, j - i - 1);
      assert SplitsAt(s, i);
    }
    if exists i :: 0 < i < |s| && SplitsAt(s, i) {
      var i :| 0 < i < |s| && SplitsAt(s, i);
      var d := s[i + 1..];
      var j :| 0 < j < |d| - 1 && d[j] == '.';
      assert s[i + 1..i + 1 + j] == d[..j];
      assert s[i + 1 + j + 1..] == d[j + 1..];
      DomainSplit(d, j);
      assert PatternSplit(s, i, i + 1 + j);
    }
  }

  /** A valid address holds exactly one '@' and no white space. */
  lemma {:induction false} ValidEmailShape(s: string)
    requires IsValidEmail(s)
    ensures forall k :: 0 <= k < |s| ==> !IsWhitespace(s[k])
    ensures exists i :: 0 < i < |s| - 1 && s[i] == '@' && forall k :: 0 <= k < |s| && k != i ==> s[k] != '@'
    ensures exists i, j :: 0 < i && i + 1 < j < |s| - 1 && s[i] == '@' && s[j] == '.'
  {
    var i :| 0 < i < |s| && SplitsAt(s, i);
    var d := s[i + 1..];
    var j :| 0 < j < |d| - 1 && d[j] == '.';
    assert s[i + 1 + j] == '.';
    forall k | 0 <= k < |s| && k != i
      ensures IsEmailChar(s[k])
    {
      if k < i {
        assert s[k] == s[..i][k];
      } else {
        assert s[k] == s[i + 1..][k - i - 1];
      }
    }
  }

  /** The characters `sanitizeInput` strips: `[<>&'"]`. */
  predicate IsMarkup(c: char)
  {
    c == '<' || c == '>' || c == '&' || c == '\'' || c == '"'
  }

  /** `sanitizeInput`: removes every markup character and keeps the rest in order. */
  function Sanitize(s: string): (r: string)
    ensures forall c :: c in r <==> c in s && !IsMarkup(c)
    ensures SubsequenceOf(r, s)
    ensures |r| <= |s|
  {
    if s == [] then []
    else if IsMarkup(s[0]) then Sanitize(s[1..])
    else [s[0]] + Sanitize(s[1..])
  }

  /** Sanitising acts character by character, so it distributes over concatenation. */
  lemma {:induction false} SanitizeAppend(a: string, b: string)
    ensures Sanitize(a + b) == Sanitize(a) + Sanitize(b)
  {
    if a == [] {
      assert a + b == b;
    } else {
      assert (a + b)[1..] == a[1..] + b;
      SanitizeAppend(a[1..], b);
    }
  }

  /** A string without markup is left as it is; in particular sanitising twice
      is the same as sanitising once. */
  lemma {:induction false} SanitizeFixesClean(s: string)
    requires forall k :: 0 <= k < |s| ==> !IsMarkup(s[k])
    ensures Sanitize(s) == s
  {
    if s != [] {
      SanitizeFixesClean(s[1..]);
    }
  }

  lemma {:induction false} SanitizeIdempotent(s: string)
    ensures Sanitize(Sanitize(s)) == Sanitize(s)
  {
    var r := Sanitize(s);
    forall k | 0 <= k < |r|
      ensures !IsMarkup(r[k])
    {
      assert r[k] in r;
    }
    SanitizeFixesClean(r);
  }
}
