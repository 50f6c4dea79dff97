/**
 * The onboarding form (screens/Onboarding.js): a first name and an email,
 * each checked by a regular expression against its trimmed text, an error
 * line under each field, and a Next button that calls `onFinish` when the
 * form is valid.
 *
 * The two regular expressions are written out as predicates on characters:
 *   first name   ^[A-Za-z]+$
 *   email        ^[^\s@]+@[^\s@]+\.[^\s@]+$
 */
module Onboarding {
  import opened JsText

  /** `^[A-Za-z]+$`: one or more ASCII letters and nothing else. */
  predicate IsNameText(t: string) {
    |t| > 0 && forall i | 0 <= i < |t| :: IsAsciiLetter(t[i])
  }

  /** A character of the class `[^\s@]`. */
  predicate IsEmailChar(c: char) {
    !IsWhitespace(c) && c != '@'
  }

  predicate AllEmailChars(s: string) {
    forall i | 0 <= i < |s| :: IsEmailChar(s[i])
  }

  /**
   * What `^[^\s@]+@[^\s@]+\.[^\s@]+$` matches: the text splits at an `@`
   * (index `at`) and a later `.` (index `dot`) into three non-empty runs of
   * `[^\s@]` characters.
   */
  ghost predicate MatchesEmailPattern(t: string) {
    exists at, dot | 0 < at && at + 1 < dot && dot + 1 < |t| ::
      && t[at] == '@' && t[dot] == '.'
      && AllEmailChars(t[..at]) && AllEmailChars(t[at + 1..dot]) && AllEmailChars(t[dot + 1..])
  }

  /** Index of the first `c` in `s`, or `|s|` when there is none. */
  function IndexOf(s: string, c: char): (k: nat)
    ensures k <= |s|
    ensures k < |s| ==> s[k] == c
    ensures forall i | 0 <= i < k :: s[i] != c
  {
    if s == [] then 0 else if s[0] == c then 0 else 1 + IndexOf(s[1..], c)
  }

  /**
   * The email rule as a direct check: no whitespace, exactly one `@`, a
   * non-empty part before it, and a domain with a `.` that is neither its
   * first nor its last character.
   */
  predicate IsEmailText(t: string) {
    && (forall i | 0 <= i < |t| :: !IsWhitespace(t[i]))
    && Count(t, '@') == 1
    && var at := IndexOf(t, '@');
       && at > 0
       && exists dot | at + 1 < dot < |t| - 1 :: t[dot] == '.'
  }

  /** isFirstNameValid */
  predicate IsFirstNameValid(firstName: string) {
    IsNameText(Trim(firstName))
  }

  /** isEmailValid */
  predicate IsEmailValid(email: string) {
    IsEmailText(Trim(email))
  }

  /** isFormValid */
  predicate IsFormValid(firstName: string, email: string) {
    IsFirstNameValid(firstName) && IsEmailValid(email)
  }

  /** With exactly one `c`, the first `c` is the only one. */
  lemma {:induction false} CountOne(s: string, c: char)
    requires Count(s, c) == 1
    ensures IndexOf(s, c) < |s|
    ensures forall i | 0 <= i < |s| && i != IndexOf(s, c) :: s[i] != c
  {
    if s[0] == c {
      assert Count(s[1..], c) == 0;
      CountZero(s[1..], c);
    } else {
      CountOne(s[1..], c);
      forall i | 0 <= i < |s| && i != IndexOf(s, c) ensures s[i] != c {
        if i > 0 { assert s[i] == s[1..][i - 1]; }
      }
    }
  }

  lemma {:induction false} CountZero(s: string, c: char)
    requires Count(s, c) == 0
    ensures forall i | 0 <= i < |s| :: s[i] != c
  {
    if s != [] {
      CountZero(s[1..], c);
      forall i | 0 <= i < |s| ensures s[i] != c {
        if i > 0 { assert s[i] == s[1..][i - 1]; }
      }
    }
  }

  /** A `c` at index `k` and none elsewhere: exactly one `c`, and it is the first. */
  lemma {:induction false} CountSingle(s: string, c: char, k: nat)
    requires k < |s| && s[k] == c
    requires forall i | 0 <= i < |s| && i != k :: s[i] != c
    ensures Count(s, c) == 1 && IndexOf(s, c) == k
  {
    if k == 0 {
      CountAbsent(s[1..], c);
    } else {
      CountSingle(s[1..], c, k - 1);
    }
  }

  /** The direct email check accepts exactly what the regular expression matches. */
  lemma EmailTextMatchesPattern(t: string)
    ensures IsEmailText(t) <==> MatchesEmailPattern(t)
  {
    if IsEmailText(t) {
      EmailTextGivesPattern(t);
    }
    if MatchesEmailPattern(t) {
      PatternGivesEmailText(t);
    }
  }

  /** A text passing the direct check splits as the regular expression requires. */
  lemma EmailTextGivesPattern(t: string)
    requires IsEmailText(t)
    ensures MatchesEmailPattern(t)
  {
    var at := IndexOf(t, '@');
    CountOne(t, '@');
    var dot :| at + 1 < dot < |t| - 1 && t[dot] == '.';
    assert AllEmailChars(t[..at]);
    assert AllEmailChars(t[at + 1..dot]);
    assert AllEmailChars(t[dot + 1..]);
  }

  /** A text the regular expression matches passes the direct check. */
  lemma PatternGivesEmailText(t: string)
    requires MatchesEmailPattern(t)
    ensures IsEmailText(t)
  {
    var at, dot :| 0 < at && at + 1 < dot && dot + 1 < |t|
      && t[at] == '@' && t[dot] == '.'
      && AllEmailChars(t[..at]) && AllEmailChars(t[at + 1..dot]) && AllEmailChars(t[dot + 1..]);
    forall i | 0 <= i < |t| && i != at ensures IsEmailChar(t[i]) {
      if i < at { assert t[i] == t[..at][i]; }
      else if i < dot { assert t[i] == t[at + 1..dot][i - at - 1]; }
      else if i > dot { assert t[i] == t[dot + 1..][i - dot - 1]; }
    }
    CountSingle(t, '@', at);
    assert IndexOf(t, '@') == at;
    assert at + 1 < dot < |t| - 1 && t[dot] == '.';
  }

  /**
   * `s` is a non-empty run of ASCII letters at `[i, j)` with nothing but
   * whitespace before and after it.
   */
  ghost predicate PaddedLetters(s: string, i: int, j: int) {
    && 0 <= i < j <= |s|
    && (forall k | 0 <= k < i :: IsWhitespace(s[k]))
    && (forall k | j <= k < |s| :: IsWhitespace(s[k]))
    && (forall k | i <= k < j :: IsAsciiLetter(s[k]))
  }

  /**
   * A first name is valid exactly when it is a non-empty run of ASCII
   * letters, possibly padded with whitespace on either side.
   */
  lemma FirstNameValidIff(firstName: string)
    ensures IsFirstNameValid(firstName) <==> exists i, j :: PaddedLetters(firstName, i, j)
  {
    if IsFirstNameValid(firstName) {
      ValidNameIsPadded(firstName);
    }
    if exists i, j :: PaddedLetters(firstName, i, j) {
      var i, j :| PaddedLetters(firstName, i, j);
      PaddedNameIsValid(firstName, i, j);
    }
  }

  /** A valid first name is the trimmed run of letters, padded. */
  lemma ValidNameIsPadded(s: string)
    requires IsFirstNameValid(s)
    ensures exists i, j :: PaddedLetters(s, i, j)
  {
    var r := Trim(s);
    var i := TrimSplit(s);
    PaddedSlice(s, i, r);
  }

  /**
   * A run of letters `r` that sits in `s` at `i`, with only whitespace
   * around it, makes `s` padded letters.
   */
  lemma PaddedSlice(s: string, i: nat, r: string)
    requires i + |r| <= |s| && r == s[i..i + |r|] && IsNameText(r)
    requires forall k | 0 <= k < i :: IsWhitespace(s[k])
    requires forall k | i + |r| <= k < |s| :: IsWhitespace(s[k])
    ensures PaddedLetters(s, i, i + |r|)
  {
    forall k | i <= k < i + |r| ensures IsAsciiLetter(s[k]) {
      assert s[k] == r[k - i];
    }
  }

  /** A run of letters padded with whitespace is a valid first name. */
  lemma PaddedNameIsValid(s: string, i: int, j: int)
    requires PaddedLetters(s, i, j)
    ensures IsFirstNameValid(s)
  {
    var pre, w, post := s[..i], s[i..j], s[j..];
    PaddedParts(s, i, j);
    calc {
      Trim(s);
    == { assert s == pre + w + post; }
      Trim(pre + w + post);
    == { TrimIgnoresPadding(pre, w, post); }
      Trim(w);
    == { LettersTrimToThemselves(w); }
      w;
    }
  }

  /** The three parts of a padded run: whitespace, letters, whitespace. */
  lemma PaddedParts(s: string, i: int, j: int)
    requires PaddedLetters(s, i, j)
    ensures AllWhitespace(s[..i]) && IsNameText(s[i..j]) && AllWhitespace(s[j..])
  {
    forall k | 0 <= k < i ensures IsWhitespace(s[..i][k]) { assert s[..i][k] == s[k]; }
    forall k | 0 <= k < j - i ensures IsAsciiLetter(s[i..j][k]) { assert s[i..j][k] == s[i + k]; }
    forall k | 0 <= k < |s| - j ensures IsWhitespace(s[j..][k]) { assert s[j..][k] == s[j + k]; }
  }

  /** A run of letters has no whitespace to trim. */
  lemma LettersTrimToThemselves(w: string)
    requires IsNameText(w)
    ensures Trim(w) == w
  {
    LetterIsNotWhitespace(w[0]);
    LetterIsNotWhitespace(w[|w| - 1]);
    assert TrimStart(w) == w;
    assert TrimEnd(w) == w;
  }

  /** No ASCII letter is whitespace. */
  lemma LetterIsNotWhitespace(c: char)
    requires IsAsciiLetter(c)
    ensures !IsWhitespace(c)
  {
  }

  /** Leading and trailing whitespace never change the validity of either field. */
  lemma ValidityIgnoresPadding(pre: string, s: string, post: string)
    requires AllWhitespace(pre) && AllWhitespace(post)
    ensures IsFirstNameValid(pre + s + post) == IsFirstNameValid(s)
    ensures IsEmailValid(pre + s + post) == IsEmailValid(s)
  {
    TrimIgnoresPadding(pre, s, post);
  }

  /** What the form shows for its current input. */
  datatype FormView = FormView(firstNameError: bool, emailError: bool, nextDisabled: bool)

  /**
   * The error lines and the Next button: an error shows when the field is
   * invalid and the raw input is not empty; Next is disabled when the form
   * is invalid.
   */
  function Render(firstName: string, email: string): FormView {
    FormView(!IsFirstNameValid(firstName) && |firstName| > 0,
             !IsEmailValid(email) && |email| > 0,
             !IsFormValid(firstName, email))
  }

  /** handleNextPress: whether `onFinish` is called. */
  function HandleNextPress(firstName: string, email: string, hasOnFinish: bool): bool {
    IsFormValid(firstName, email) && hasOnFinish
  }

  /**
   * An error line shows exactly for a non-empty invalid field; the empty form
   * keeps Next disabled; any error that shows disables Next; and when Next
   * is enabled and `onFinish` is given, pressing it calls `onFinish`, while
   * otherwise pressing it does nothing.
   */
  lemma FormBehaviour(firstName: string, email: string, hasOnFinish: bool)
    ensures Render(firstName, email).firstNameError <==> |firstName| > 0 && !IsFirstNameValid(firstName)
    ensures Render(firstName, email).emailError <==> |email| > 0 && !IsEmailValid(email)
    ensures firstName == [] && email == [] ==> Render(firstName, email) == FormView(false, false, true)
    ensures Render(firstName, email).firstNameError || Render(firstName, email).emailError
            ==> Render(firstName, email).nextDisabled
    ensures HandleNextPress(firstName, email, hasOnFinish)
            <==> !Render(firstName, email).nextDisabled && hasOnFinish
  {
    if firstName == [] {
      assert Trim(firstName) == [];
    }
  }

  /** Whitespace alone is never a valid name, and a non-empty run of it shows the error. */
  lemma BlankNameShowsError(firstName: string)
    requires |firstName| > 0 && AllWhitespace(firstName)
    ensures !IsFirstNameValid(firstName)
    ensures Render(firstName, "").firstNameError
  {
    assert Trim(firstName) == [];
  }
}
