/**
 * The read side: how GetAllFeedbacks, GetAllProjects and GetProject turn the
 * documents the backend returns into typed records, filling every absent or
 * falsy field with a fixed default through `||`, and the response envelopes
 * they return. The listing or fetch itself is a parameter: `None` stands for
 * a backend call that threw.
 */
module ReadNormalisation {
  import opened Wrappers
  import opened JsValues
  import opened Enums
  import opened FeedbackCreation

  /** Metadata the backend attaches to every document; copied through unchanged. */
  datatype DocumentMeta = DocumentMeta(
    id: string,
    collectionId: string,
    databaseId: string,
    createdAt: string,
    updatedAt: string,
    permissions: seq<string>)

  /** A feedback document as listed; every domain field may be absent. */
  datatype RawFeedback = RawFeedback(
    meta: DocumentMeta,
    projectId: Option<string>,
    description: Option<string>,
    username: Option<string>,
    userEmail: Option<string>,
    pageUrl: Option<string>,
    screenshotUrl: Option<string>,
    feedbackType: Option<string>,
    status: Option<string>,
    rating: Option<real>)

  /** The typed feedback record handed to the dashboard. */
  datatype FeedbackProps = FeedbackProps(
    projectId: Option<string>,
    description: string,
    username: string,
    userEmail: string,
    pageUrl: string,
    screenshotUrl: Option<string>,
    feedbackType: string,
    status: string,
    rating: real,
    meta: DocumentMeta)

  const DefaultUsername := "Anonymous"
  const DefaultEmail := "unknown@example.com"
  const DefaultType := "general"
  const DefaultStatus := "pending"
  const DefaultRating := 3.0

  /** The `map` callback of GetAllFeedbacks. */
  function NormalizeFeedback(doc: RawFeedback): FeedbackProps {
    FeedbackProps(
      doc.projectId,
      OrString(doc.description, ""),
      OrString(doc.username, DefaultUsername),
      OrString(doc.userEmail, DefaultEmail),
      OrString(doc.pageUrl, ""),
      OrUndefined(doc.screenshotUrl),
      OrString(doc.feedbackType, DefaultType),
      OrString(doc.status, DefaultStatus),
      OrNumber(doc.rating, DefaultRating),
      doc.meta)
  }

  /**
   * Each field of a read feedback is the stored value when that is truthy and
   * the field's default otherwise; the project id and metadata pass through.
   */
  lemma FeedbackFieldDefaults(doc: RawFeedback)
    ensures var p := NormalizeFeedback(doc);
      && p.projectId == doc.projectId && p.meta == doc.meta
      && p.description == doc.description.GetOr("")
      && p.pageUrl == doc.pageUrl.GetOr("")
      && (TruthyString(doc.username) ==> p.username == doc.username.value)
      && (!TruthyString(doc.username) ==> p.username == "Anonymous")
      && (TruthyString(doc.userEmail) ==> p.userEmail == doc.userEmail.value)
      && (!TruthyString(doc.userEmail) ==> p.userEmail == "unknown@example.com")
      && (TruthyString(doc.feedbackType) ==> p.feedbackType == doc.feedbackType.value)
      && (!TruthyString(doc.feedbackType) ==> p.feedbackType == "general")
      && (TruthyString(doc.status) ==> p.status == doc.status.value)
      && (!TruthyString(doc.status) ==> p.status == "pending")
      && (TruthyNumber(doc.rating) ==> p.rating == doc.rating.value)
      && (!TruthyNumber(doc.rating) ==> p.rating == 3.0)
      && (p.screenshotUrl.Some? <==> TruthyString(doc.screenshotUrl))
  {
  }

  /**
   * A read feedback never carries an empty name, email, category or status,
   * nor a zero rating; description and page URL may stay empty.
   */
  lemma ReadFeedbackIsTruthy(doc: RawFeedback)
    ensures var p := NormalizeFeedback(doc);
      p.username != "" && p.userEmail != "" && p.feedbackType != "" && p.status != "" && p.rating != 0.0
  {
  }

  /** The document a read would see for an already-normalised record. */
  function AsStored(p: FeedbackProps): RawFeedback {
    RawFeedback(p.meta, p.projectId, Some(p.description), Some(p.username), Some(p.userEmail),
                Some(p.pageUrl), p.screenshotUrl, Some(p.feedbackType), Some(p.status), Some(p.rating))
  }

  /** Normalising a record that was already normalised changes nothing. */
  lemma NormalizeFeedbackIdempotent(doc: RawFeedback)
    ensures NormalizeFeedback(AsStored(NormalizeFeedback(doc))) == NormalizeFeedback(doc)
  {
    ReadFeedbackIsTruthy(doc);
  }

  /** The document CreateFeedback writes, as a later listing returns it. */
  function CreatedDocument(meta: DocumentMeta, rec: FeedbackRecord): RawFeedback {
    RawFeedback(meta, Some(rec.projectId), Some(rec.description), Some(rec.username), Some(rec.userEmail),
                Some(rec.pageUrl), None, Some(rec.feedbackType), Some(rec.status), Some(rec.rating))
  }

  /**
   * Write then read: a feedback CreateFeedback accepted is read back with
   * exactly the fields it was written with; no read default applies to it.
   */
  lemma CreatedFeedbackReadsBack(input: FeedbackInput, meta: DocumentMeta)
    requires PrepareFeedback(input).Success?
    ensures var rec := PrepareFeedback(input).value;
            var p := NormalizeFeedback(CreatedDocument(meta, rec));
      && p.projectId == Some(rec.projectId)
      && p.description == rec.description
      && p.username == rec.username
      && p.userEmail == rec.userEmail
      && p.pageUrl == rec.pageUrl
      && p.feedbackType == rec.feedbackType
      && p.status == rec.status
      && p.rating == rec.rating
      && p.screenshotUrl == None
  {
    var rec := PrepareFeedback(input).value;
    PreparedIsWellFormed(input);
    var t: FeedbackType :| t.Value() == rec.feedbackType;
    var s: FeedbackStatus :| s.Value() == rec.status;
    assert t.Value() != "" && s.Value() != "";
  }

  /**
   * The read defaults for category and status lie outside the enumerations:
   * a feedback read with a defaulted category or status could not be
   * submitted again as it reads.
   */
  lemma ReadDefaultsFailValidation(doc: RawFeedback, input: FeedbackInput)
    requires !TruthyString(doc.feedbackType) || !TruthyString(doc.status)
    ensures var p := NormalizeFeedback(doc);
      PrepareFeedback(input.(feedbackType := p.feedbackType, status := p.status)).Failure?
  {
    assert ParseType("general").None? && ParseStatus("pending").None?;
  }

  /**
   * Write then read for an anonymous submitter: a feedback accepted without a
   * name or email reads back as "Anonymous" / "anonymous@example.com", never
   * with the read-side default "unknown@example.com".
   */
  lemma AnonymousSubmissionReadsBack(input: FeedbackInput, meta: DocumentMeta)
    requires PrepareFeedback(input).Success?
    requires !TruthyString(input.username) && !TruthyString(input.userEmail)
    ensures var p := NormalizeFeedback(CreatedDocument(meta, PrepareFeedback(input).value));
      && p.username == "Anonymous"
      && p.userEmail == "anonymous@example.com"
      && p.userEmail != DefaultEmail
  {
    assert DefaultEmail[0] == 'u';
  }

  /** A project document as fetched or listed; every domain field may be absent. */
  datatype RawProject = RawProject(
    meta: DocumentMeta,
    feedbacks: Option<seq<string>>,
    description: Option<string>,
    name: Option<string>,
    url: Option<string>,
    totalFeedbacks: Option<real>)

  /** The typed project record; `totalFeedbacks` is set only by a listing. */
  datatype ProjectType = ProjectType(
    collectionId: string,
    createdAt: string,
    id: string,
    updatedAt: string,
    feedbacks: seq<string>,
    description: string,
    name: string,
    url: string,
    totalFeedbacks: Option<real>)

  /** The object GetProject builds from the fetched document. */
  function NormalizeProject(doc: RawProject): ProjectType {
    ProjectType(doc.meta.collectionId, doc.meta.createdAt, doc.meta.id, doc.meta.updatedAt,
                OrEmptyArray(doc.feedbacks), OrString(doc.description, ""), OrString(doc.name, ""),
                OrString(doc.url, ""), None)
  }

  /** The `map` callback of GetAllProjects, which also fills `total_feedbacks`. */
  function NormalizeListedProject(doc: RawProject): ProjectType {
    ProjectType(doc.meta.collectionId, doc.meta.createdAt, doc.meta.id, doc.meta.updatedAt,
                OrEmptyArray(doc.feedbacks), OrString(doc.description, ""), OrString(doc.name, ""),
                OrString(doc.url, ""), Some(OrNumber(doc.totalFeedbacks, 0.0)))
  }

  /**
   * Because each project default equals the field's own falsy value, reading a
   * project keeps every present field verbatim (an empty one included) and
   * turns only absent ones into "", [] or 0.
   */
  lemma ProjectFieldsKept(doc: RawProject)
    ensures var p := NormalizeProject(doc);
      && p.id == doc.meta.id && p.collectionId == doc.meta.collectionId
      && p.createdAt == doc.meta.createdAt && p.updatedAt == doc.meta.updatedAt
      && (doc.name.Some? ==> p.name == doc.name.value) && (doc.name.None? ==> p.name == "")
      && (doc.url.Some? ==> p.url == doc.url.value) && (doc.url.None? ==> p.url == "")
      && (doc.description.Some? ==> p.description == doc.description.value)
      && (doc.description.None? ==> p.description == "")
      && (doc.feedbacks.Some? ==> p.feedbacks == doc.feedbacks.value) && (doc.feedbacks.None? ==> p.feedbacks == [])
    ensures NormalizeListedProject(doc).totalFeedbacks == Some(doc.totalFeedbacks.GetOr(0.0))
  {
  }

  /** A listed project and the same project fetched alone agree on every field they share. */
  lemma ListedAndFetchedAgree(doc: RawProject)
    ensures NormalizeListedProject(doc).(totalFeedbacks := None) == NormalizeProject(doc)
  {
  }

  /** The result of GetAllFeedbacks. */
  datatype FeedbacksResponse = FeedbacksResponse(success: bool, feedbacks: Option<seq<FeedbackProps>>)

  /** GetAllFeedbacks, given the listing the backend returned (`None`: it threw). */
  function GetAllFeedbacks(listing: Option<seq<RawFeedback>>): (r: FeedbacksResponse)
    ensures r.success <==> listing.Some?
    ensures r.success ==> r.feedbacks.Some? && |r.feedbacks.value| == |listing.value|
    ensures r.success ==> forall i :: 0 <= i < |listing.value| ==>
              r.feedbacks.value[i] == NormalizeFeedback(listing.value[i])
    ensures !r.success ==> r.feedbacks.None?
  {
    match listing
    case None => FeedbacksResponse(false, None)
    case Some(docs) => FeedbacksResponse(true, Some(ArrayMap(NormalizeFeedback, docs)))
  }

  /** What a project listing returns: the documents and the backend's own count. */
  datatype ProjectListing = ProjectListing(documents: seq<RawProject>, total: nat)

  /** The result of GetAllProjects. */
  datatype ProjectsResponse = ProjectsResponse(
    success: bool, message: string, allProjects: Option<seq<ProjectType>>, totalProjects: nat)

  /** GetAllProjects, given the listing the backend returned (`None`: it threw). */
  function GetAllProjects(listing: Option<ProjectListing>): (r: ProjectsResponse)
    ensures r.success <==> listing.Some?
    ensures !r.success ==> r.totalProjects == 0 && r.allProjects.None? && r.message == "Failed to Fetch the data"
    ensures r.success ==>
              && r.message == "Get The Data"
              && r.totalProjects == listing.value.total
              && r.allProjects.Some?
              && |r.allProjects.value| == |listing.value.documents|
              && forall i :: 0 <= i < |listing.value.documents| ==>
                   r.allProjects.value[i] == NormalizeListedProject(listing.value.documents[i])
  {
    match listing
    case None => ProjectsResponse(false, "Failed to Fetch the data", None, 0)
    case Some(l) => ProjectsResponse(true, "Get The Data", Some(ArrayMap(NormalizeListedProject, l.documents)), l.total)
  }

  /** The result of GetProject. */
  datatype ProjectResponse = ProjectResponse(success: bool, project: Option<ProjectType>)

  /** GetProject, given the document the backend fetched (`None`: it threw). */
  function GetProject(fetched: Option<RawProject>): (r: ProjectResponse)
    ensures r.success <==> fetched.Some?
    ensures r.success ==> r.project == Some(NormalizeProject(fetched.value))
    ensures !r.success ==> r.project.None?
  {
    match fetched
    case None => ProjectResponse(false, None)
    case Some(doc) => ProjectResponse(true, Some(NormalizeProject(doc)))
  }
}
