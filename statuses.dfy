/**
 * The application status vocabulary: five upper-case constants and a
 * case-insensitive membership test.
 */
module ApplicationStatuses {
  import opened Text

  const Applied: string := "APPLIED"
  const Reviewed: string := "REVIEWED"
  const Interviewing: string := "INTERVIEWING"
  const Accepted: string := "ACCEPTED"
  const Rejected: string := "REJECTED"

  const ValidStatuses: seq<string> := [Applied, Reviewed, Interviewing, Accepted, Rejected]

  /** Every constant is already in upper case. */
  lemma StatusesAreUpperCase()
    ensures forall i :: 0 <= i < |ValidStatuses| ==> Upper(ValidStatuses[i]) == ValidStatuses[i]
  {
    forall i | 0 <= i < |ValidStatuses|
      ensures Upper(ValidStatuses[i]) == ValidStatuses[i]
    {
      var v := ValidStatuses[i];
      assert forall k :: 0 <= k < |v| ==> 'A' <= v[k] <= 'Z';
    }
  }

  /** `ValidStatuses.Contains(status, StringComparer.OrdinalIgnoreCase)`. */
  predicate IsValidStatus(status: string)
  {
    exists i :: 0 <= i < |ValidStatuses| && EqualsIgnoreCase(status, ValidStatuses[i])
  }

  /** A status is valid exactly when its upper-case form is one of the five names. */
  lemma ValidIffUpperListed(status: string)
    ensures IsValidStatus(status) <==>
      Upper(status) in {"APPLIED", "REVIEWED", "INTERVIEWING", "ACCEPTED", "REJECTED"}
  {
    StatusesAreUpperCase();
    if Upper(status) in {"APPLIED", "REVIEWED", "INTERVIEWING", "ACCEPTED", "REJECTED"} {
      var u := Upper(status);
      var i := if u == Applied then 0 else if u == Reviewed then 1
        else if u == Interviewing then 2 else if u == Accepted then 3 else 4;
      assert Upper(ValidStatuses[i]) == ValidStatuses[i];
      assert EqualsIgnoreCase(status, ValidStatuses[i]);
    }
  }

  /** The upper-case form of a valid status is one of the stored constants. */
  lemma ValidUpperIsListed(status: string)
    requires IsValidStatus(status)
    ensures Upper(status) in ValidStatuses
  {
    ValidIffUpperListed(status);
  }

  /** Validity does not depend on how the argument is cased. */
  lemma ValidityIgnoresCase(status: string)
    ensures IsValidStatus(Upper(status)) <==> IsValidStatus(status)
    ensures IsValidStatus(Lower(status)) <==> IsValidStatus(status)
  {
    UpperIdempotent(status);
    UpperOfLower(status);
    ValidIffUpperListed(status);
    ValidIffUpperListed(Upper(status));
    ValidIffUpperListed(Lower(status));
  }

  /** A name outside the five, such as "PENDING", is refused in any casing. */
  lemma PendingIsInvalid()
    ensures !IsValidStatus("PENDING") && !IsValidStatus("pending")
  {
    ValidIffUpperListed("PENDING");
    ValidIffUpperListed("pending");
    assert Upper("PENDING") == "PENDING";
    assert Upper("pending") == "PENDING";
  }

  /** Lower-case spellings of the constants are accepted. */
  lemma LowerCaseAccepted()
    ensures IsValidStatus("accepted") && IsValidStatus("Interviewing")
  {
    ValidIffUpperListed("accepted");
    ValidIffUpperListed("Interviewing");
    assert Upper("accepted") == "ACCEPTED";
    assert Upper("Interviewing") == "INTERVIEWING";
  }
}
