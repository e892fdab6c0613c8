/**
 * The test at the top of the attempt block of `register`: a connection
 * string is absent when it is nil or matches the Ruby pattern /\A\s*\Z/.
 */
module ConnectionString {

  import opened Wrappers

  /** Ruby's `\s` character class: space, tab, line feed, vertical tab, form feed, carriage return. */
  predicate IsSpace(c: char) {
    c == ' ' || c == '\t' || c == '\n' || c == '\U{B}' || c == '\U{C}' || c == '\r'
  }

  ghost predicate AllSpace(s: string) {
    forall i :: 0 <= i < |s| ==> IsSpace(s[i])
  }

  /** Ruby's `\Z` at position k: the end of the string, or just before a final line feed. */
  ghost predicate EndAnchorAt(s: string, k: nat) {
    k == |s| || (k + 1 == |s| && s[k] == '\n')
  }

  /**
   * What it means for /\A\s*\Z/ to match s: from the start (`\A`), some run of
   * `\s` characters reaches a position where `\Z` holds.
   */
  ghost predicate BlankPatternMatches(s: string) {
    exists k :: 0 <= k <= |s| && AllSpace(s[..k]) && EndAnchorAt(s, k)
  }

  /** The executable scan, one character at a time from the front. */
  function IsBlank(s: string): (blank: bool)
  {
    if s == [] then true else IsSpace(s[0]) && IsBlank(s[1..])
  }

  /** The scan accepts exactly the strings made only of `\s` characters. */
  lemma {:induction false} BlankIffAllSpace(s: string)
    ensures IsBlank(s) <==> AllSpace(s)
  {
    if s != [] {
      BlankIffAllSpace(s[1..]);
      if AllSpace(s[1..]) && IsSpace(s[0]) {
        forall i | 0 <= i < |s| ensures IsSpace(s[i]) {
          if i > 0 {
            assert s[i] == s[1..][i - 1];
          }
        }
      }
      if AllSpace(s) {
        forall i | 0 <= i < |s[1..]| ensures IsSpace(s[1..][i]) {
          assert s[1..][i] == s[i + 1];
        }
      }
    }
  }

  /** The scan decides exactly the strings the pattern matches, in both directions. */
  lemma BlankIffPatternMatches(s: string)
    ensures IsBlank(s) <==> BlankPatternMatches(s)
  {
    BlankIffAllSpace(s);
    if IsBlank(s) {
      assert s[..|s|] == s;
      assert AllSpace(s[..|s|]) && EndAnchorAt(s, |s|);
    }
    if BlankPatternMatches(s) {
      var k :| 0 <= k <= |s| && AllSpace(s[..k]) && EndAnchorAt(s, k);
      forall i | 0 <= i < |s| ensures IsSpace(s[i]) {
        if i < k {
          assert s[..k][i] == s[i];
        }
      }
    }
  }

  /**
   * The negation of the guard `!cs.nil? and cs !~ /\A\s*\Z/`: true when no
   * endpoint is configured and the adapter runs in its ignore-everything mode.
   */
  function IsAbsent(cs: Option<string>): (absent: bool)
  {
    cs.None? || IsBlank(cs.value)
  }

  /** Absent means nil, or matched by /\A\s*\Z/; present means a non-nil string the pattern rejects. */
  lemma AbsentIffPatternMatches(cs: Option<string>)
    ensures IsAbsent(cs) <==> cs.None? || BlankPatternMatches(cs.value)
  {
    if cs.Some? {
      BlankIffPatternMatches(cs.value);
    }
  }

}
