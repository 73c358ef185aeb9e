/** The string operations the script relies on: Python's `str.lower`,
    `str.upper` and the substring test `token in text`. */
module Text {

  /** `str.lower` on one character; only ASCII letters are mapped. */
  function LowerChar(c: char): char
  {
    if 'A' <= c <= 'Z' then (c as int + 32) as char else c
  }

  /** `str.upper` on one character; only ASCII letters are mapped. */
  function UpperChar(c: char): char
  {
    if 'a' <= c <= 'z' then (c as int - 32) as char else c
  }

  function Lower(s: string): (r: string)
    ensures |r| == |s|
    ensures forall i :: 0 <= i < |s| ==> r[i] == LowerChar(s[i])
  {
    seq(|s|, i requires 0 <= i < |s| => LowerChar(s[i]))
  }

  function Upper(s: string): (r: string)
    ensures |r| == |s|
    ensures forall i :: 0 <= i < |s| ==> r[i] == UpperChar(s[i])
  {
    seq(|s|, i requires 0 <= i < |s| => UpperChar(s[i]))
  }

  predicate StartsWith(text: string, prefix: string)
  {
    |prefix| <= |text| && text[..|prefix|] == prefix
  }

  /** Python's `token in text`: the token starts at some position of the text. */
  predicate Contains(text: string, token: string)
    decreases |text|
  {
    StartsWith(text, token) || (|text| > 0 && Contains(text[1..], token))
  }

  /** Reference reading of a substring occurrence: `token` is the slice of
      `text` that begins at position `i`. */
  ghost predicate OccursAt(text: string, token: string, i: int)
  {
    0 <= i && i + |token| <= |text| && text[i..i + |token|] == token
  }

  /** `Contains` holds exactly when the token occurs at some position. */
  lemma {:induction false} ContainsIffOccurs(text: string, token: string)
    ensures Contains(text, token) <==> exists i :: OccursAt(text, token, i)
    decreases |text|
  {
    if StartsWith(text, token) {
      assert OccursAt(text, token, 0);
    } else if |text| == 0 {
      forall i ensures !OccursAt(text, token, i) {
      }
    } else {
      ContainsIffOccurs(text[1..], token);
      if Contains(text[1..], token) {
        var i :| OccursAt(text[1..], token, i);
        assert text[1..][i..i + |token|] == text[i + 1..i + 1 + |token|];
        assert OccursAt(text, token, i + 1);
      } else {
        forall i ensures !OccursAt(text, token, i) {
          if 1 <= i && i + |token| <= |text| {
            assert text[1..][i - 1..i - 1 + |token|] == text[i..i + |token|];
            assert !OccursAt(text[1..], token, i - 1);
          }
        }
      }
    }
  }

  /** Lower-casing forgets any earlier upper-casing: `s.upper().lower() == s.lower()`
      (for the ASCII letters this model maps). */
  lemma {:induction false} LowerOfUpper(s: string)
    ensures Lower(Upper(s)) == Lower(s)
  {
    var a, b := Lower(Upper(s)), Lower(s);
    assert |a| == |b|;
    forall i | 0 <= i < |s| ensures a[i] == b[i] {
      assert Upper(s)[i] == UpperChar(s[i]);
    }
  }

  /** Upper-casing forgets any earlier lower-casing: `s.lower().upper() == s.upper()`. */
  lemma {:induction false} UpperOfLower(s: string)
    ensures Upper(Lower(s)) == Upper(s)
  {
    var a, b := Upper(Lower(s)), Upper(s);
    assert |a| == |b|;
    forall i | 0 <= i < |s| ensures a[i] == b[i] {
      assert Lower(s)[i] == LowerChar(s[i]);
    }
  }

  /** A token holding a character the text lacks does not occur in it. */
  lemma {:induction false} AbsentCharExcludes(text: string, token: string, c: char)
    requires c in token && c !in text
    ensures !Contains(text, token)
    decreases |text|
  {
    if |text| > 0 {
      assert c !in text[1..] by {
        assert forall x :: x in text[1..] ==> x in text;
      }
      AbsentCharExcludes(text[1..], token, c);
    }
  }
}
