/** The records the server stores and the client receives: the analysis,
    team, membership, comment and user rows, and the theme results an
    analysis carries once extraction has completed. */
module Schema {
  import opened Wrappers

  /** Row ids: opaque values, fresh for every insert. */
  type Id = nat
  /** Users are identified by the subject claim of their session. */
  type UserId = string
  /** Timestamps taken when a row is written. */
  type Timestamp = nat

  /** One theme of an analysis result. `percentage` is the model's estimate,
      passed through unchanged. */
  datatype Theme = Theme(
    name: string,
    summary: string,
    percentage: real,
    quotes: seq<string>,
    suggestedAction: string,
    isEdited: bool)

  /** The outcome of one extraction. The wall-clock `processingTime` in
      seconds is not part of this model. */
  datatype AnalysisResults = AnalysisResults(
    themes: seq<Theme>,
    totalFeedback: nat,
    themesFound: nat)

  datatype User = User(
    id: UserId,
    email: string,
    firstName: string,
    lastName: string,
    profileImageUrl: string,
    createdAt: Timestamp,
    updatedAt: Timestamp)

  datatype Team = Team(
    id: Id,
    name: string,
    description: Option<string>,
    ownerId: UserId,
    createdAt: Timestamp)

  datatype TeamMember = TeamMember(
    id: Id,
    teamId: Id,
    userId: UserId,
    role: string,
    joinedAt: Timestamp)

  /** An analysis row: `analysisResults` is `None` (SQL null) until the
      extraction has written its results. */
  datatype FeedbackAnalysis = FeedbackAnalysis(
    id: Id,
    userId: UserId,
    teamId: Option<Id>,
    title: string,
    description: Option<string>,
    feedbackData: seq<string>,
    analysisResults: Option<AnalysisResults>,
    isShared: bool,
    sharedWith: Option<seq<UserId>>,
    createdAt: Timestamp,
    updatedAt: Timestamp,
    processingTimeMs: Option<int>)

  /** A comment on an analysis; `themeIndex` is `None` (null) for a general comment. */
  datatype AnalysisComment = AnalysisComment(
    id: Id,
    analysisId: Id,
    userId: UserId,
    themeIndex: Option<int>,
    content: string,
    createdAt: Timestamp,
    updatedAt: Timestamp)

  /** A comment joined with its author's user row, as the comment list returns it. */
  datatype CommentWithAuthor = CommentWithAuthor(comment: AnalysisComment, user: User)
}
