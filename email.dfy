/**
 * The contact-email check of the Brewer entity: an unanchored search for the
 * regular expression [A-Za-z0-9._%+-]+@[A-Za-z0-9.-]+\.[A-Za-z]{2,4}.
 * `RegexFinds` states the search as written (some substring matches the whole
 * pattern); `ContainsEmail` is the equivalent condition the setter evaluates.
 */
module EmailPattern {

  /** [A-Za-z] */
  predicate IsAsciiLetter(c: char) {
    'A' <= c <= 'Z' || 'a' <= c <= 'z'
  }

  /** [0-9] */
  predicate IsAsciiDigit(c: char) {
    '0' <= c <= '9'
  }

  /** The class before the '@': [A-Za-z0-9._%+-] */
  predicate IsLocalChar(c: char) {
    IsAsciiLetter(c) || IsAsciiDigit(c) || c == '.' || c == '_' || c == '%' || c == '+' || c == '-'
  }

  /** The class after the '@': [A-Za-z0-9.-] */
  predicate IsDomainChar(c: char) {
    IsAsciiLetter(c) || IsAsciiDigit(c) || c == '.' || c == '-'
  }

  /**
   * The whole pattern matches s[i..j], with its '@' at index k and the escaped
   * '.' at index m: one or more local characters, '@', one or more domain
   * characters, '.', then two to four letters.
   */
  ghost predicate MatchesSpan(s: string, i: nat, k: nat, m: nat, j: nat) {
    i < k && k + 1 < m && m + 3 <= j <= m + 5 && j <= |s|
    && (forall p | i <= p < k :: IsLocalChar(s[p]))
    && s[k] == '@'
    && (forall p | k < p < m :: IsDomainChar(s[p]))
    && s[m] == '.'
    && (forall p | m < p < j :: IsAsciiLetter(s[p]))
  }

  /** Regex.Match(s).Success: the pattern matches somewhere inside s. */
  ghost predicate RegexFinds(s: string) {
    exists i: nat, k: nat, m: nat, j: nat :: MatchesSpan(s, i, k, m, j)
  }

  /**
   * The shortest possible match around an '@' at k and a '.' at m: one local
   * character before the '@', domain characters up to the '.', two letters after it.
   */
  predicate EmailAt(s: string, k: nat, m: nat) {
    0 < k && k + 1 < m && m + 2 < |s|
    && IsLocalChar(s[k - 1])
    && s[k] == '@'
    && (forall p | k < p < m :: IsDomainChar(s[p]))
    && s[m] == '.'
    && IsAsciiLetter(s[m + 1]) && IsAsciiLetter(s[m + 2])
  }

  /** The condition the ContactEmail setter accepts a non-null value on. */
  predicate ContainsEmail(s: string) {
    exists k, m | 0 <= k < |s| && 0 <= m < |s| :: EmailAt(s, k, m)
  }

  /**
   * The regex search succeeds exactly when `ContainsEmail` holds: any match can
   * be shrunk to one local character and two letters, and those already match.
   */
  lemma ContainsEmailIffRegexFinds(s: string)
    ensures ContainsEmail(s) <==> RegexFinds(s)
  {
    if ContainsEmail(s) {
      var k, m :| 0 <= k < |s| && 0 <= m < |s| && EmailAt(s, k, m);
      assert MatchesSpan(s, k - 1, k, m, m + 3);
    }
    if RegexFinds(s) {
      var i: nat, k: nat, m: nat, j: nat :| MatchesSpan(s, i, k, m, j);
      assert IsLocalChar(s[k - 1]);
      assert IsAsciiLetter(s[m + 1]) && IsAsciiLetter(s[m + 2]);
      assert EmailAt(s, k, m);
    }
  }

  /** Because the search is unanchored, text around an address does not matter. */
  lemma AcceptsAddressInsideText()
    ensures ContainsEmail("mail info@bavik.be!")
  {
    assert EmailAt("mail info@bavik.be!", 9, 15);
  }

  /** Nor does a top-level domain longer than four letters: "{2,4}" bounds only the match. */
  lemma AcceptsLongTopLevelDomain()
    ensures ContainsEmail("a@b.brewery")
  {
    assert EmailAt("a@b.brewery", 1, 3);
  }

  /** A single letter after the last dot is not enough. */
  lemma RejectsOneLetterTopLevelDomain()
    ensures !ContainsEmail("a@b.c")
  {
  }
}
