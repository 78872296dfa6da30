/**
 * The e-mail check shared by the register and login pages: the regular
 * expression `^[^\s@]+@[^\s@]+\.[^\s@]+$`.
 *
 * `MatchesEmailRegex` reads the expression literally (three non-empty runs
 * of allowed characters around an '@' and a '.'); `IsValidEmail` is the
 * direct check the pages use, and `EmailCheckMatchesRegex` shows the two
 * agree on every string.
 */
module EmailPattern {
  import opened Strings

  /** `[^\s@]`: anything but white space and '@'. */
  predicate InClass(c: char) {
    !IsJsWhitespace(c) && c != '@'
  }

  predicate AllInClass(s: string) {
    forall k :: 0 <= k < |s| ==> InClass(s[k])
  }

  /** The regular expression, read as the split of the string it demands. */
  ghost predicate MatchesEmailRegex(s: string) {
    exists i, j :: 0 < i && i + 1 < j && j + 1 < |s| && s[i] == '@' && s[j] == '.'
      && AllInClass(s[..i]) && AllInClass(s[i + 1..j]) && AllInClass(s[j + 1..])
  }

  predicate NoWhitespace(s: string) {
    forall k :: 0 <= k < |s| ==> !IsJsWhitespace(s[k])
  }

  /** No white space; exactly one '@', not at the start; and after it a '.'
      that is neither the first nor the last character of the domain. */
  predicate IsValidEmail(s: string) {
    var i := IndexOfChar(s, '@');
    && NoWhitespace(s)
    && i > 0
    && '@' !in s[i + 1..]
    && i + 3 < |s|
    && '.' in s[i + 2..|s| - 1]
  }

  /** The direct check accepts exactly the strings the regular expression
      matches. */
  lemma EmailCheckMatchesRegex(s: string)
    ensures IsValidEmail(s) <==> MatchesEmailRegex(s)
  {
    if IsValidEmail(s) {
      ValidEmailMatches(s);
    }
    if MatchesEmailRegex(s) {
      var i, j :| 0 < i && i + 1 < j && j + 1 < |s| && s[i] == '@' && s[j] == '.'
        && AllInClass(s[..i]) && AllInClass(s[i + 1..j]) && AllInClass(s[j + 1..]);
      MatchIsValid(s, i, j);
    }
  }

  lemma ValidEmailMatches(s: string)
    requires IsValidEmail(s)
    ensures MatchesEmailRegex(s)
  {
    var i := IndexOfChar(s, '@');
    var d := s[i + 2..|s| - 1];
    var p :| 0 <= p < |d| && d[p] == '.';
    var j := i + 2 + p;
    assert s[j] == '.';
    forall k | 0 <= k < i
      ensures InClass(s[..i][k])
    {
      assert s[..i][k] == s[k];
    }
    var mid, tail := s[i + 1..j], s[j + 1..];
    forall k | 0 <= k < |mid|
      ensures InClass(mid[k])
    {
      assert mid[k] == s[i + 1..][k];
    }
    forall k | 0 <= k < |tail|
      ensures InClass(tail[k])
    {
      assert tail[k] == s[i + 1..][k + j - i];
    }
  }

  lemma MatchIsValid(s: string, i: int, j: int)
    requires 0 < i && i + 1 < j && j + 1 < |s| && s[i] == '@' && s[j] == '.'
    requires AllInClass(s[..i]) && AllInClass(s[i + 1..j]) && AllInClass(s[j + 1..])
    ensures IsValidEmail(s)
  {
    forall k | 0 <= k < |s|
      ensures !IsJsWhitespace(s[k])
      ensures i < k ==> s[k] != '@'
    {
      if k < i {
        assert s[..i][k] == s[k];
      } else if i < k < j {
        assert s[i + 1..j][k - i - 1] == s[k];
      } else if j < k {
        assert s[j + 1..][k - j - 1] == s[k];
      }
    }
    assert '@' !in s[..i] by {
      forall k | 0 <= k < i
        ensures s[..i][k] != '@'
      {
        assert s[..i][k] == s[k];
      }
    }
    assert IndexOfChar(s, '@') == i by {
      var f := IndexOfChar(s, '@');
      assert s[..f + 1][i] == '@';
    }
    assert s[i + 2..|s| - 1][j - i - 2] == '.';
  }
}
