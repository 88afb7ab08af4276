/** The JavaScript string primitives the application leans on: the white-space
    class of `\s` and `trim`, `toLowerCase` and `includes`. */
module Text {

  /** The characters JavaScript's `\s` class and `String.prototype.trim` treat as white space. */
  predicate IsWhitespace(c: char)
  {
    c == ' ' || c == '\t' || c == '\n' || c == '\U{B}' || c == '\U{C}' || c == '\r'
    || c == '\U{A0}' || c == '\U{1680}' || ('\U{2000}' <= c <= '\U{200A}')
    || c == '\U{2028}' || c == '\U{2029}' || c == '\U{202F}' || c == '\U{205F}'
    || c == '\U{3000}' || c == '\U{FEFF}'
  }

  /** `!s.trim()`: the string is empty once white space is trimmed from both ends. */
  predicate IsBlank(s: string)
  {
    forall i :: 0 <= i < |s| ==> IsWhitespace(s[i])
  }

  /** `toLowerCase` on one character; only the ASCII letters are folded. */
  function LowerChar(c: char): char
  {
    if 'A' <= c <= 'Z' then (c as int + 32) as char else c
  }

  function ToLower(s: string): (r: string)
    ensures |r| == |s|
    ensures forall i :: 0 <= i < |s| ==> r[i] == LowerChar(s[i])
  {
    seq(|s|, i requires 0 <= i < |s| => LowerChar(s[i]))
  }

  /** Lower-casing twice is lower-casing once. */
  lemma {:induction false} ToLowerIdempotent(s: string)
    ensures ToLower(ToLower(s)) == ToLower(s)
  {
    var t := ToLower(s);
    forall i | 0 <= i < |s|
      ensures ToLower(t)[i] == t[i]
    {
      assert t[i] == LowerChar(s[i]);
    }
  }

  /** `length`: the number of UTF-16 code units, one for a character of the
      Basic Multilingual Plane and two (a surrogate pair) for any other. */
  function Utf16Length(s: string): (n: nat)
    ensures |s| <= n <= 2 * |s|
    ensures n == |s| <==> forall i :: 0 <= i < |s| ==> s[i] as int < 0x10000
    ensures |s| == 1 ==> n == if s[0] as int < 0x10000 then 1 else 2
  {
    if s == [] then 0
    else
      var rest := Utf16Length(s[1..]);
      assert (forall i :: 0 <= i < |s| ==> s[i] as int < 0x10000) <==>
             (s[0] as int < 0x10000 && forall i :: 0 <= i < |s[1..]| ==> s[1..][i] as int < 0x10000) by {
        if forall i :: 0 <= i < |s[1..]| ==> s[1..][i] as int < 0x10000 {
          forall i | 1 <= i < |s|
            ensures s[i] as int < 0x10000
          {
            assert s[i] == s[1..][i - 1];
          }
        }
      }
      (if s[0] as int < 0x10000 then 1 else 2) + rest
  }

  /** The code units of a concatenation are those of its parts; with the
      single-character values this fixes the count of every string. */
  lemma {:induction false} Utf16LengthAppend(a: string, b: string)
    ensures Utf16Length(a + b) == Utf16Length(a) + Utf16Length(b)
    decreases |a|
  {
    if a != [] {
      assert (a + b)[0] == a[0];
      assert (a + b)[1..] == a[1..] + b;
      Utf16LengthAppend(a[1..], b);
    } else {
      assert a + b == b;
    }
  }

  /** A letter and an emoji are three code units. */
  lemma {:induction false} MixedTextCountsEach()
    ensures Utf16Length("a\U{1F600}") == 3
  {
    var s := "a\U{1F600}";
    assert s == "a" + "\U{1F600}";
    Utf16LengthAppend("a", "\U{1F600}");
  }

  /** Four emoji are eight code units: JavaScript counts this as an
      eight-character password. */
  lemma {:induction false} AstralCharactersCountTwice()
    ensures var s := "\U{1F600}\U{1F600}\U{1F600}\U{1F600}";
      |s| == 4 && Utf16Length(s) == 8
  {
    var s := "\U{1F600}\U{1F600}\U{1F600}\U{1F600}";
    assert s[1..] == "\U{1F600}\U{1F600}\U{1F600}";
    assert s[1..][1..] == "\U{1F600}\U{1F600}";
    assert s[1..][1..][1..] == "\U{1F600}";
  }

  predicate OccursAt(hay: string, needle: string, i: nat)
  {
    i + |needle| <= |hay| && hay[i..i + |needle|] == needle
  }

  /** `hay.includes(needle)`. */
  predicate Contains(hay: string, needle: string)
  {
    exists i: nat :: i <= |hay| && OccursAt(hay, needle, i)
  }

  lemma {:induction false} ContainsEmpty(hay: string)
    ensures Contains(hay, "")
  {
    assert OccursAt(hay, "", 0);
  }
}
