/**
 * The two string enumerations a feedback is validated against, with their
 * runtime values in declaration order (what `Object.values` returns).
 */
module Enums {
  import opened Wrappers

  /** The category a feedback is filed under. */
  datatype FeedbackType = Bug | GeneralInformation | Feature {
    function Value(): string {
      match this
      case Bug => "bug"
      case GeneralInformation => "generalInformation"
      case Feature => "feature"
    }
  }

  /** The processing state of a feedback. */
  datatype FeedbackStatus = New | InProgress | Resolved {
    function Value(): string {
      match this
      case New => "new"
      case InProgress => "inProgress"
      case Resolved => "resolved"
    }
  }

  /** `Object.values(FeedbackType)`. */
  const TypeValues: seq<string> := [Bug.Value(), GeneralInformation.Value(), Feature.Value()]

  /** `Object.values(FeedbackStatus)`. */
  const StatusValues: seq<string> := [New.Value(), InProgress.Value(), Resolved.Value()]

  /** The string is the runtime value of some FeedbackType member. */
  ghost predicate IsTypeValue(s: string) {
    exists t: FeedbackType :: t.Value() == s
  }

  /** The string is the runtime value of some FeedbackStatus member. */
  ghost predicate IsStatusValue(s: string) {
    exists t: FeedbackStatus :: t.Value() == s
  }

  /**
   * The member whose runtime value is `s`, if any. A string enumeration has
   * no such lookup at runtime; this one serves the proofs about membership.
   */
  function ParseType(s: string): (r: Option<FeedbackType>)
    ensures r.Some? ==> r.value.Value() == s
    ensures r.None? <==> !IsTypeValue(s)
  {
    if s == "bug" then Some(Bug)
    else if s == "generalInformation" then Some(GeneralInformation)
    else if s == "feature" then Some(Feature)
    else None
  }

  /** The member whose runtime value is `s`, if any; like ParseType, for proofs only. */
  function ParseStatus(s: string): (r: Option<FeedbackStatus>)
    ensures r.Some? ==> r.value.Value() == s
    ensures r.None? <==> !IsStatusValue(s)
  {
    if s == "new" then Some(New)
    else if s == "inProgress" then Some(InProgress)
    else if s == "resolved" then Some(Resolved)
    else None
  }

  /** `Object.values(FeedbackType).includes(s)` holds exactly for the members' values. */
  lemma TypeValuesIncludes(s: string)
    ensures s in TypeValues <==> IsTypeValue(s)
  {
    if IsTypeValue(s) {
      var t: FeedbackType :| t.Value() == s;
      match t
      case Bug => assert s == TypeValues[0];
      case GeneralInformation => assert s == TypeValues[1];
      case Feature => assert s == TypeValues[2];
    }
  }

  /** `Object.values(FeedbackStatus).includes(s)` holds exactly for the members' values. */
  lemma StatusValuesIncludes(s: string)
    ensures s in StatusValues <==> IsStatusValue(s)
  {
    if IsStatusValue(s) {
      var t: FeedbackStatus :| t.Value() == s;
      match t
      case New => assert s == StatusValues[0];
      case InProgress => assert s == StatusValues[1];
      case Resolved => assert s == StatusValues[2];
    }
  }
}
