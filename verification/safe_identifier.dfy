/**
 * The safe-identifier pattern `^[0-9a-zA-Z_\.\(\)]*$` that `Boundary` and
 * `SqlGroup` apply to caller-supplied property names before they can reach
 * SQL text. Both classes test it with `Pattern.asPredicate()`, which runs
 * `Matcher.find()`.
 *
 * Two readings of the pattern are modelled:
 *  - `PatternFindAccepts`: the pattern as `java.util.regex` evaluates it with
 *    `find()`. Without MULTILINE, `$` also matches just before one line
 *    terminator that ends the input, so a safe name followed by a newline
 *    passes (`TrailingNewlineAccepted`). The validators use this reading;
 *  - `IsSafe`: every character is in the class, which is what the error
 *    messages of both classes promise; the corrected validators use it.
 */
module SafeIdentifier {

  /** The character class `[0-9a-zA-Z_.()]`. */
  predicate IsSafeChar(c: char) {
    ('0' <= c <= '9') || ('a' <= c <= 'z') || ('A' <= c <= 'Z') || c == '_' || c == '.' || c == '(' || c == ')'
  }

  /** Every character of `s` is in the class; the empty string qualifies. */
  predicate IsSafe(s: string) {
    forall i :: 0 <= i < |s| ==> IsSafeChar(s[i])
  }

  /**
   * `[0-9a-zA-Z_.()]*` consuming the whole input, written the way a regular
   * expression matcher takes it: one class character after another.
   */
  predicate StarMatches(s: string) {
    s == [] || (IsSafeChar(s[0]) && StarMatches(s[1..]))
  }

  lemma {:induction false} StarMatchesIffSafe(s: string)
    ensures StarMatches(s) <==> IsSafe(s)
  {
    if s != [] {
      StarMatchesIffSafe(s[1..]);
      assert forall i :: 1 <= i < |s| ==> s[i] == s[1..][i - 1];
    }
  }

  // ---------------------------------------------------------------------
  // The pattern as java.util.regex evaluates it with find()

  /** How far the greedy `[...]*` first runs: the longest safe prefix. */
  function SafePrefixLength(s: string): (n: nat)
    ensures n <= |s| && IsSafe(s[..n])
    ensures n < |s| ==> !IsSafeChar(s[n])
  {
    if s == [] || !IsSafeChar(s[0]) then 0
    else
      var m := SafePrefixLength(s[1..]);
      assert s[..m + 1] == [s[0]] + s[1..][..m];
      m + 1
  }

  /** The line terminators of `java.util.regex` when UNIX_LINES is off (`\r\n` is the sixth). */
  predicate IsLineTerminator(c: char) {
    c == '\n' || c == '\r' || c == '\U{0085}' || c == '\U{2028}' || c == '\U{2029}'
  }

  /** `$` without MULTILINE, tried at position `i`: the end of the input, or one final line terminator. */
  predicate DollarMatchesAt(s: string, i: nat)
    requires i <= |s|
  {
    if i == |s| then true
    else if i == |s| - 1 then IsLineTerminator(s[i]) && !(s[i] == '\n' && i > 0 && s[i - 1] == '\r')
    else if i == |s| - 2 then s[i] == '\r' && s[i + 1] == '\n'
    else false
  }

  /** The greedy star backs off one character at a time until `$` matches. */
  predicate BacktrackFrom(s: string, i: nat)
    requires i <= |s|
  {
    DollarMatchesAt(s, i) || (i > 0 && BacktrackFrom(s, i - 1))
  }

  /** `Pattern.compile("^[...]*$").asPredicate().test(s)`; `^` only matches at the start. */
  predicate PatternFindAccepts(s: string) {
    BacktrackFrom(s, SafePrefixLength(s))
  }

  lemma {:induction false} BacktrackWitness(s: string, k: nat) returns (i: nat)
    requires k <= |s| && BacktrackFrom(s, k)
    ensures i <= k && DollarMatchesAt(s, i)
  {
    if DollarMatchesAt(s, k) {
      i := k;
    } else {
      i := BacktrackWitness(s, k - 1);
    }
  }

  lemma {:induction false} BacktrackReaches(s: string, k: nat, i: nat)
    requires i <= k <= |s| && DollarMatchesAt(s, i)
    ensures BacktrackFrom(s, k)
  {
    if i < k {
      BacktrackReaches(s, k - 1, i);
    }
  }

  /**
   * What the Java check accepts: a safe name, optionally followed by exactly
   * one line terminator.
   */
  lemma PatternFindAcceptsExactly(s: string)
    ensures PatternFindAccepts(s) <==>
      || IsSafe(s)
      || (|s| >= 1 && IsSafe(s[..|s| - 1]) && IsLineTerminator(s[|s| - 1]))
      || (|s| >= 2 && IsSafe(s[..|s| - 2]) && s[|s| - 2..] == "\r\n")
  {
    var n := SafePrefixLength(s);
    if PatternFindAccepts(s) {
      var i := BacktrackWitness(s, n);
      assert s[..i] == s[..n][..i];
      if i == |s| - 2 {
        assert s[|s| - 2..] == [s[|s| - 2], s[|s| - 1]];
      }
    }
    if |s| >= 1 && IsSafe(s[..|s| - 1]) && IsLineTerminator(s[|s| - 1]) {
      assert forall j :: 0 <= j < |s| - 1 ==> s[j] == s[..|s| - 1][j];
      BacktrackReaches(s, n, |s| - 1);
    }
    if |s| >= 2 && IsSafe(s[..|s| - 2]) && s[|s| - 2..] == "\r\n" {
      assert forall j :: 0 <= j < |s| - 2 ==> s[j] == s[..|s| - 2][j];
      assert s[|s| - 2] == s[|s| - 2..][0];
      BacktrackReaches(s, n, |s| - 2);
    }
  }

  /** The Java check lets a name ending in a newline through, though `\n` is not in the class. */
  lemma TrailingNewlineAccepted()
    ensures PatternFindAccepts("name\n") && !IsSafe("name\n")
  {
    var s := "name\n";
    assert !IsSafeChar(s[4]);
    assert s[..|s| - 1] == "name";
    PatternFindAcceptsExactly(s);
  }

  /** On names without line terminators the two readings agree. */
  lemma PatternFindAgreesWithoutTerminators(s: string)
    requires forall i :: 0 <= i < |s| ==> !IsLineTerminator(s[i])
    ensures PatternFindAccepts(s) <==> IsSafe(s)
  {
    PatternFindAcceptsExactly(s);
    if |s| >= 2 && s[|s| - 2..] == "\r\n" {
      assert s[|s| - 1] == s[|s| - 2..][1];
    }
  }
}
