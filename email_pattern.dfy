/** The e-mail check of ProfilPage, `/^[^\s@]+@[^\s@]+\.[^\s@]+$/`: three
    non-empty runs of characters that are neither whitespace nor `@`,
    separated by a literal `@` and a literal `.`. */
module EmailPattern {
  import opened Wrappers
  import opened JsValues

  /** A character of the class `[^\s@]`. */
  predicate PlainChar(c: char) {
    c != '@' && !IsJsWhitespace(c)
  }

  /** `[^\s@]+`. */
  predicate PlainRun(t: string) {
    |t| > 0 && forall k :: 0 <= k < |t| ==> PlainChar(t[k])
  }

  /** The pattern matches `s` with its `@` at `i` and its `.` at `j`. */
  predicate MatchesAt(s: string, i: int, j: int) {
    0 < i < j < |s| && s[i] == '@' && s[j] == '.'
    && PlainRun(s[..i]) && PlainRun(s[i + 1..j]) && PlainRun(s[j + 1..])
  }

  /** `emailRegex.test(s)`: some placement of the two separators matches. */
  predicate RegexMatches(s: string) {
    exists i, j | 0 <= i < |s| && 0 <= j < |s| :: MatchesAt(s, i, j)
  }

  /** True when no character of `t` is whitespace or `@`. */
  predicate AllPlain(t: string) {
    forall k :: 0 <= k < |t| ==> PlainChar(t[k])
  }

  /** A `.` with at least one character on either side. */
  predicate HasInnerDot(t: string) {
    exists j | 0 < j < |t| - 1 :: t[j] == '.'
  }

  /** A one-pass reading of the pattern: the text before the first `@` is a
      non-empty run without whitespace, and the rest is a run without `@` or
      whitespace that has a dot strictly inside it. */
  function IsValidEmail(s: string): (r: bool)
    ensures r ==> |s| >= 5
    ensures r ==> exists i :: OnlyAtSign(s, i)
    ensures r ==> forall k :: 0 <= k < |s| ==> !IsJsWhitespace(s[k])
  {
    var at := IndexOf(s, '@');
    var ok := at.Some? && at.value > 0
      && (forall k :: 0 <= k < at.value ==> !IsJsWhitespace(s[k]))
      && AllPlain(s[at.value + 1..]) && HasInnerDot(s[at.value + 1..]);
    if ok then
      assert OnlyAtSign(s, at.value) by {
        forall k | at.value < k < |s| ensures s[k] != '@' {
          assert s[k] == s[at.value + 1..][k - at.value - 1];
        }
      }
      true
    else false
  }

  /** `s[i]` is the one `@` of `s`. */
  predicate OnlyAtSign(s: string, i: int) {
    0 <= i < |s| && s[i] == '@' && forall k :: 0 <= k < |s| && s[k] == '@' ==> k == i
  }

  /** The scanning check accepts exactly the strings the pattern matches. */
  lemma EmailCheckMatchesRegex(s: string)
    ensures IsValidEmail(s) <==> RegexMatches(s)
  {
    if IsValidEmail(s) {
      EmailCheckSound(s);
    }
    if RegexMatches(s) {
      EmailCheckComplete(s);
    }
  }

  /** Every string the scanning check accepts is matched by the pattern. */
  lemma EmailCheckSound(s: string)
    requires IsValidEmail(s)
    ensures RegexMatches(s)
  {
    var i := IndexOf(s, '@').value;
    var rest := s[i + 1..];
    var d :| 0 < d < |rest| - 1 && rest[d] == '.';
    var j := i + 1 + d;
    assert s[i + 1..j] == rest[..d];
    assert s[j + 1..] == rest[d + 1..];
    assert PlainRun(s[..i]);
    assert PlainRun(s[i + 1..j]);
    assert PlainRun(s[j + 1..]);
    assert MatchesAt(s, i, j);
  }

  /** Every string the pattern matches passes the scanning check. */
  lemma EmailCheckComplete(s: string)
    requires RegexMatches(s)
    ensures IsValidEmail(s)
  {
    var i, j :| 0 <= i < |s| && 0 <= j < |s| && MatchesAt(s, i, j);
    assert forall k :: 0 <= k < i ==> s[k] == s[..i][k];
    assert IndexOf(s, '@') == Some(i);
    var rest := s[i + 1..];
    assert forall k :: 0 <= k < |rest| ==> PlainChar(rest[k]) by {
      forall k | 0 <= k < |rest| ensures PlainChar(rest[k]) {
        if k < j - i - 1 {
          assert rest[k] == s[i + 1..j][k];
        } else if k > j - i - 1 {
          assert rest[k] == s[j + 1..][k - (j - i)];
        }
      }
    }
    assert rest[j - i - 1] == '.';
    assert HasInnerDot(rest);
  }

  lemma AcceptedEmail()
    ensures IsValidEmail("ad@alan.com")
  {
    var s := "ad@alan.com";
    assert s[0] != '@' && s[1] != '@' && s[2] == '@';
    assert IndexOf(s, '@') == Some(2);
    assert s[3..] == "alan.com";
    assert s[3..][4] == '.';
  }

  /** No top-level domain, an empty local part, and a space are all refused. */
  lemma RejectedEmails()
    ensures !IsValidEmail("ad@alan")
    ensures !IsValidEmail("@alan.com")
    ensures !IsValidEmail("a d@x.co")
  {
    var s := "ad@alan";
    assert s[0] != '@' && s[1] != '@' && s[2] == '@';
    assert IndexOf(s, '@') == Some(2);
    assert s[3..] == "alan";
    assert IndexOf("@alan.com", '@') == Some(0);
    var t := "a d@x.co";
    assert t[0] != '@' && t[1] != '@' && t[2] != '@' && t[3] == '@';
    assert IndexOf(t, '@') == Some(3);
    assert IsJsWhitespace(t[1]);
  }
}
