/**
 * The checks CreateFeedback runs before it writes anything: anonymous defaults
 * for the submitter, then the category, then the status, then the rating. The
 * outcome is either the message of the first check that failed or the record
 * to persist; the write itself is in module FeedbackStore.
 */
module FeedbackCreation {
  import opened Wrappers
  import opened JsValues
  import opened Enums

  /** The arguments of CreateFeedback. `username` and `userEmail` may be absent. */
  datatype FeedbackInput = FeedbackInput(
    description: string,
    username: Option<string>,
    userEmail: Option<string>,
    pageUrl: string,
    feedbackType: string,
    status: string,
    rating: real,
    projectId: string)

  /** The fields of the feedback document that CreateFeedback writes. */
  datatype FeedbackRecord = FeedbackRecord(
    description: string,
    username: string,
    userEmail: string,
    pageUrl: string,
    feedbackType: string,
    status: string,
    rating: real,
    projectId: string)

  const AnonymousName := "Anonymous"
  const AnonymousEmail := "anonymous@example.com"

  const InvalidTypeMessage := "Invalid feedback type. Must be one of: " + Join(TypeValues, ", ")
  const InvalidStatusMessage := "Invalid status. Must be one of: " + Join(StatusValues, ", ")
  const RatingMessage := "Rating must be an integer between 1 and 5"

  /** `Number.isInteger(x)` for a finite number. */
  predicate IsInteger(x: real) {
    x.Floor as real == x
  }

  /** The ratings a feedback may carry, listed outright. */
  ghost predicate AllowedRating(x: real) {
    x in {1.0, 2.0, 3.0, 4.0, 5.0}
  }

  /** The rating guard as written: `rating < 1 || rating > 5 || !Number.isInteger(rating)` rejects. */
  predicate RatingPasses(x: real) {
    !(x < 1.0 || x > 5.0 || !IsInteger(x))
  }

  /** The rating guard lets through exactly the integers 1 to 5. */
  lemma RatingPassesIff(x: real)
    ensures RatingPasses(x) <==> AllowedRating(x)
  {
    if RatingPasses(x) {
      var n := x.Floor;
      assert 1 <= n <= 5;
      assert n == 1 || n == 2 || n == 3 || n == 4 || n == 5;
    }
  }

  /** Ratings 0, 6 and 3.5 are refused, 1 and 5 accepted. */
  lemma RatingExamples()
    ensures !RatingPasses(0.0) && !RatingPasses(6.0) && !RatingPasses(3.5)
    ensures RatingPasses(1.0) && RatingPasses(5.0)
  {
    assert (3.5).Floor == 3;
  }

  /** The list of category values in the message reads "bug, generalInformation, feature". */
  lemma JoinedTypeValues()
    ensures Join(TypeValues, ", ") == "bug, generalInformation, feature"
  {
    assert TypeValues[1..][1..] == ["feature"];
    assert Join(TypeValues[1..], ", ") == "generalInformation, feature";
  }

  /** The list of status values in the message reads "new, inProgress, resolved". */
  lemma JoinedStatusValues()
    ensures Join(StatusValues, ", ") == "new, inProgress, resolved"
  {
    assert StatusValues[1..][1..] == ["resolved"];
    assert Join(StatusValues[1..], ", ") == "inProgress, resolved";
  }

  /**
   * The three validation messages all differ and none is empty, so the message
   * a failed CreateFeedback returns names the check that failed.
   */
  lemma ValidationMessagesDistinct()
    ensures InvalidTypeMessage != InvalidStatusMessage
    ensures InvalidTypeMessage != RatingMessage && InvalidStatusMessage != RatingMessage
    ensures InvalidTypeMessage != "" && InvalidStatusMessage != "" && RatingMessage != ""
  {
    assert InvalidTypeMessage[8] == 'f';
    assert InvalidStatusMessage[8] == 's';
    assert RatingMessage[0] == 'R';
  }

  /**
   * CreateFeedback up to the write: fill the anonymous defaults, then check the
   * category, the status and the rating in that order.
   */
  function PrepareFeedback(input: FeedbackInput): (r: Result<FeedbackRecord, string>)
    ensures !IsTypeValue(input.feedbackType) ==> r == Failure(InvalidTypeMessage)
    ensures IsTypeValue(input.feedbackType) && !IsStatusValue(input.status) ==>
              r == Failure(InvalidStatusMessage)
    ensures IsTypeValue(input.feedbackType) && IsStatusValue(input.status) && !AllowedRating(input.rating) ==>
              r == Failure(RatingMessage)
    ensures r.Success? <==>
              IsTypeValue(input.feedbackType) && IsStatusValue(input.status) && AllowedRating(input.rating)
    ensures r.Success? ==>
              && r.value.description == input.description
              && r.value.pageUrl == input.pageUrl
              && r.value.feedbackType == input.feedbackType
              && r.value.status == input.status
              && r.value.rating == input.rating
              && r.value.projectId == input.projectId
    ensures r.Success? ==>
              && r.value.username == (if TruthyString(input.username) then input.username.value else "Anonymous")
              && r.value.userEmail == (if TruthyString(input.userEmail) then input.userEmail.value else "anonymous@example.com")
  {
    var username := OrString(input.username, AnonymousName);
    var userEmail := OrString(input.userEmail, AnonymousEmail);
    TypeValuesIncludes(input.feedbackType);
    StatusValuesIncludes(input.status);
    RatingPassesIff(input.rating);
    if input.feedbackType !in TypeValues then Failure(InvalidTypeMessage)
    else if input.status !in StatusValues then Failure(InvalidStatusMessage)
    else if !RatingPasses(input.rating) then Failure(RatingMessage)
    else Success(FeedbackRecord(input.description, username, userEmail, input.pageUrl,
                                input.feedbackType, input.status, input.rating, input.projectId))
  }

  /**
   * Every record CreateFeedback would persist is well formed: a non-empty
   * submitter name and email, a category and status from the enumerations,
   * and an integral rating from 1 to 5.
   */
  ghost predicate WellFormed(rec: FeedbackRecord) {
    && rec.username != ""
    && rec.userEmail != ""
    && IsTypeValue(rec.feedbackType)
    && IsStatusValue(rec.status)
    && AllowedRating(rec.rating)
  }

  lemma PreparedIsWellFormed(input: FeedbackInput)
    requires PrepareFeedback(input).Success?
    ensures WellFormed(PrepareFeedback(input).value)
  {
  }

  /** Submitting a persisted record's fields again passes validation and yields the same record. */
  lemma ResubmitWellFormed(rec: FeedbackRecord)
    requires WellFormed(rec)
    ensures PrepareFeedback(FeedbackInput(rec.description, Some(rec.username), Some(rec.userEmail), rec.pageUrl,
                                          rec.feedbackType, rec.status, rec.rating, rec.projectId))
            == Success(rec)
  {
  }
}
