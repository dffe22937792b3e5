/**
 * `SqlGroup.validate`: the check that a group-by field given as a raw string
 * consists only of safe identifier characters.
 */
module SqlGroup {
  import opened Errors
  import opened SafeIdentifier

  const InvalidGroupFieldMessage: string :=
    "group fields that are not marked as unsafe must only consist of digits, letter, '.', '_', and ''. "
    + "Note that such expressions become part of SQL statements and therefore need to be sanatized to prevent SQL injection attacks."

  /**
   * `SqlGroup.validate` as written: returns normally exactly when the
   * pattern, tested with `find()`, accepts `property`, which lets one
   * trailing line terminator through; throws `IllegalArgumentException`
   * otherwise.
   */
  function Validate(property: string): (r: Outcome)
    ensures r.Pass? <==> PatternFindAccepts(property)
    ensures r.Fail? ==> r.error == IllegalArgument(InvalidGroupFieldMessage)
  {
    if PatternFindAccepts(property) then Pass else Fail(IllegalArgument(InvalidGroupFieldMessage))
  }

  /** The check as its message describes it: every character is in the class. */
  function ValidateSafe(property: string): (r: Outcome)
    ensures r.Pass? <==> StarMatches(property)
    ensures r.Fail? ==> r.error == IllegalArgument(InvalidGroupFieldMessage)
  {
    StarMatchesIffSafe(property);
    if IsSafe(property) then Pass else Fail(IllegalArgument(InvalidGroupFieldMessage))
  }

  /** Whatever the corrected check accepts, the check as written accepts too. */
  lemma {:induction false} SafeNamesPass(property: string)
    requires ValidateSafe(property).Pass?
    ensures Validate(property).Pass?
  {
    StarMatchesIffSafe(property);
    PatternFindAcceptsExactly(property);
  }

  /**
   * An unsafe character is rejected when it is not a line terminator, or
   * when it is one but stands more than two places before the end.
   */
  lemma RejectsUnsafeCharacter(property: string, i: nat)
    requires i < |property| && !IsSafeChar(property[i])
    requires !IsLineTerminator(property[i]) || i + 2 < |property|
    ensures Validate(property) == Fail(IllegalArgument(InvalidGroupFieldMessage))
    ensures ValidateSafe(property) == Fail(IllegalArgument(InvalidGroupFieldMessage))
  {
    PatternFindAcceptsExactly(property);
    StarMatchesIffSafe(property);
    var n := |property|;
    if i < n - 1 {
      assert property[..n - 1][i] == property[i];
    }
    if i < n - 2 {
      assert property[..n - 2][i] == property[i];
    }
    if n >= 2 && property[n - 2..] == "\r\n" {
      assert property[n - 2] == property[n - 2..][0] && property[n - 1] == property[n - 2..][1];
    }
  }

  /** As written, a safe name followed by a newline passes; the corrected check rejects it. */
  lemma TrailingNewlinePasses()
    ensures Validate("id\n") == Pass
    ensures ValidateSafe("id\n").Fail?
  {
    var s := "id\n";
    assert !IsSafeChar(s[2]);
    assert s[..|s| - 1] == "id";
    PatternFindAcceptsExactly(s);
    StarMatchesIffSafe(s);
  }

  lemma AcceptsEmptyAndQualifiedNames()
    ensures Validate("").Pass?
    ensures Validate("t.id").Pass? && Validate("max(id)").Pass?
  {
    assert IsSafe("t.id");
    assert IsSafe("max(id)");
    SafeNamesPass("");
    SafeNamesPass("t.id");
    SafeNamesPass("max(id)");
  }

  lemma RejectsInjectionAttempts()
    ensures Validate("id; DROP").Fail?
    ensures Validate("id--").Fail? && Validate("'id'").Fail? && Validate("id desc").Fail?
  {
    RejectsUnsafeCharacter("id; DROP", 2);
    RejectsUnsafeCharacter("id--", 2);
    RejectsUnsafeCharacter("'id'", 0);
    RejectsUnsafeCharacter("id desc", 2);
  }
}
