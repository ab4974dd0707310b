/** The request handlers of server/routes.ts: what each endpoint checks, which
    storage operations it runs in which order, and the status and body it
    answers with. Sessions, multer and Express are outside the model: the
    authenticated user id, the uploaded file and the parsed body arrive as
    parameters, and a response is a body or a status with a message. */
module Routes {
  import opened Wrappers
  import opened Text
  import opened Schema
  import opened Sequences
  import opened CsvParser
  import opened ThemeShaping
  import opened Storage
  import opened CommentsSection

  const BadRequest: nat := 400
  const Forbidden: nat := 403
  const NotFound: nat := 404
  const ServerError: nat := 500

  /** A JSON body, or an error status with its message. */
  datatype Response<+T> = Ok(body: T) | Error(status: nat, message: string)

  // ---- POST /api/upload-csv ----

  /** An uploaded file: its multer metadata and what the CSV library made of
      its content. */
  datatype UploadedFile = UploadedFile(mimetype: string, originalName: string, content: LibraryParse)

  datatype UploadBody = UploadBody(data: seq<string>, preview: seq<string>, filename: string, totalEntries: nat)

  /** multer's `fileFilter`: the CSV mimetype, or a name ending in ".csv"
      (case-sensitive; the browser-side check in file-upload.tsx is not). */
  predicate AcceptsUpload(mimetype: string, originalName: string) {
    mimetype == "text/csv" || EndsWith(originalName, ".csv")
  }

  /** The upload endpoint. A file the filter rejects never reaches the
      handler: the error goes to Express's error handler, a 500. */
  function UploadCsv(file: Option<UploadedFile>): (r: Response<UploadBody>)
    ensures file.Some? && !AcceptsUpload(file.value.mimetype, file.value.originalName) ==>
      r == Error(ServerError, "Only CSV files are allowed")
    ensures file.None? ==> r == Error(BadRequest, "No file uploaded")
    ensures file.Some? && AcceptsUpload(file.value.mimetype, file.value.originalName) &&
            ParseCsvContent(file.value.content).ParseFailed? ==>
      r == Error(BadRequest, ParseCsvContent(file.value.content).error)
    ensures file.Some? && AcceptsUpload(file.value.mimetype, file.value.originalName) &&
            ParseCsvContent(file.value.content).Parsed? ==>
      var p := ParseCsvContent(file.value.content);
      r == Ok(UploadBody(p.data, p.preview, file.value.originalName, |p.data|))
    ensures r.Ok? ==>
      && file.Some? && AcceptsUpload(file.value.mimetype, file.value.originalName)
      && ParseCsvContent(file.value.content) == Parsed(r.body.data, r.body.preview)
      && r.body.filename == file.value.originalName
      && r.body.totalEntries == |r.body.data| > 0
  {
    match file
    case None => Error(BadRequest, "No file uploaded")
    case Some(f) =>
      if !AcceptsUpload(f.mimetype, f.originalName) then Error(ServerError, "Only CSV files are allowed")
      else match ParseCsvContent(f.content)
        case ParseFailed(e) => Error(BadRequest, e)
        case Parsed(data, preview) => Ok(UploadBody(data, preview, f.originalName, |data|))
  }

  // ---- POST /api/analyze-feedback ----

  /** The validated request body; `teamId` is `None` when absent or empty. */
  datatype AnalyzeRequest = AnalyzeRequest(
    feedbackEntries: seq<string>,
    title: Option<string>,
    description: Option<string>,
    teamId: Option<Id>)

  datatype AnalyzeBody = AnalyzeBody(analysisId: Id, results: AnalysisResults)

  const DefaultTitle := "Untitled Analysis"

  /** `title || "Untitled Analysis"`: an absent or empty title is replaced. */
  function TitleOrDefault(title: Option<string>): (r: string)
    ensures r != ""
    ensures title.Some? && title.value != "" ==> r == title.value
    ensures title.None? || title.value == "" ==> r == DefaultTitle
  {
    if title.Some? && title.value != "" then title.value else DefaultTitle
  }

  /** `description || null`: an empty description is stored as null. */
  function DescriptionOrNull(description: Option<string>): (r: Option<string>)
    ensures r.Some? ==> r.value != "" && r == description
    ensures description.Some? && description.value != "" ==> r == description
  {
    if description.Some? && description.value != "" then description else None
  }

  /** The row the endpoint creates before the extraction runs: no results yet,
      not shared. */
  function PendingRow(userId: UserId, req: AnalyzeRequest): (n: NewAnalysis)
    ensures n.analysisResults.None? && !n.isShared && n.sharedWith.None?
    ensures n.feedbackData == req.feedbackEntries && n.userId == userId && n.teamId == req.teamId
    ensures n.title == TitleOrDefault(req.title) && n.description == DescriptionOrNull(req.description)
  {
    NewAnalysis(userId, req.teamId, TitleOrDefault(req.title), DescriptionOrNull(req.description),
                req.feedbackEntries, None, false, None)
  }

  /** Analysis ids are unique in an ordered analysis table. */
  lemma AnalysisIdsUnique(rs: seq<FeedbackAnalysis>, i: nat, j: nat)
    requires AnalysesOrdered(rs) && i < |rs| && j < |rs| && rs[i].id == rs[j].id
    ensures i == j
  {
  }

  /** The analyze endpoint: an empty list is refused; otherwise the row is
      created with null results, the extraction runs on the reply, and its
      results are written to that same row. When the extraction fails the
      row keeps its null results and the answer is a 500. `elapsedMs` is the
      measured processing time. */
  method AnalyzeFeedback(s: DatabaseStorage, userId: UserId, req: AnalyzeRequest, reply: ModelReply, elapsedMs: int)
    returns (r: Response<AnalyzeBody>)
    requires s.Valid()
    modifies s
    ensures s.Valid()
    ensures s.users == old(s.users) && s.teams == old(s.teams)
    ensures s.teamMembers == old(s.teamMembers) && s.comments == old(s.comments)
    ensures req.feedbackEntries == [] ==>
      r == Error(BadRequest, "No feedback entries provided") && s.analyses == old(s.analyses)
    ensures req.feedbackEntries != [] ==>
      var n := PendingRow(userId, req);
      var created := FeedbackAnalysis(old(s.nextId), n.userId, n.teamId, n.title, n.description, n.feedbackData,
                                      None, false, None, old(s.clock), old(s.clock), None);
      && |s.analyses| == |old(s.analyses)| + 1
      && s.analyses[..|old(s.analyses)|] == old(s.analyses)
      && (reply.CallFailed? ==>
            && r == Error(ServerError, ErrorPrefix + if reply.message.Some? then reply.message.value else "Unknown error")
            && s.analyses[|old(s.analyses)|] == created)
      && (reply.Reply? ==>
            && r.Ok? && r.body.analysisId == old(s.nextId)
            && s.analyses[|old(s.analyses)|] ==
                 created.(analysisResults := Some(r.body.results),
                          processingTimeMs := Some(elapsedMs),
                          updatedAt := old(s.clock) + 1)
            && r.body.results.themes == ShapeThemes(ReplyThemes(reply), req.feedbackEntries)
            && r.body.results.totalFeedback == |req.feedbackEntries|
            && |r.body.results.themes| == |ReplyThemes(reply)|
            && r.body.results.themesFound == |r.body.results.themes|)
  {
    if |req.feedbackEntries| == 0 {
      return Error(BadRequest, "No feedback entries provided");
    }
    var row := s.CreateFeedbackAnalysis(PendingRow(userId, req));
    var extraction := AnalyzeFeedbackWithAI(req.feedbackEntries, reply);
    if extraction.Failure? {
      return Error(ServerError, extraction.error);
    }
    var last := |s.analyses| - 1;
    assert FindAnalysis(s.analyses, row.id) == Some(last) by {
      var found := FindAnalysis(s.analyses, row.id);
      assert s.analyses[last].id == row.id;
      AnalysisIdsUnique(s.analyses, found.value, last);
    }
    // the row was just created, so the update finds it
    var updated := s.UpdateFeedbackAnalysisResults(row.id, extraction.value, elapsedMs);
    r := Ok(AnalyzeBody(updated.value.id, extraction.value));
  }

  // ---- GET /api/analysis/:id, GET /api/analysis/:id/pdf, PATCH /api/analysis/:id ----

  datatype AnalysisBody = AnalysisBody(id: Id, results: Option<AnalysisResults>, createdAt: Timestamp, processingTimeMs: Option<int>)

  /** The single-analysis endpoint: 404 for an unknown id. */
  function GetAnalysis(s: DatabaseStorage, id: Id): (r: Response<AnalysisBody>)
    reads s
    ensures r.Error? <==> forall k :: 0 <= k < |s.analyses| ==> s.analyses[k].id != id
    ensures r.Error? ==> r == Error(NotFound, "Analysis not found")
    ensures r.Ok? ==> exists k :: (0 <= k < |s.analyses| && s.analyses[k].id == id &&
      r.body == AnalysisBody(id, s.analyses[k].analysisResults, s.analyses[k].createdAt, s.analyses[k].processingTimeMs))
  {
    match s.GetFeedbackAnalysis(id)
    case None => Error(NotFound, "Analysis not found")
    case Some(a) =>
      var row := a.analysis;
      Ok(AnalysisBody(row.id, row.analysisResults, row.createdAt, row.processingTimeMs))
  }

  /** The export: the download name and the results the report is built from
      (the report generator is not part of this model). */
  datatype ExportBody = ExportBody(filename: string, results: AnalysisResults)

  function ExportFilename(id: Id): (f: string)
    ensures |f| == |"dropofflens-analysis-"| + |DecimalString(id)| + |".html"|
    ensures f[..|"dropofflens-analysis-"|] == "dropofflens-analysis-"
    ensures f[|"dropofflens-analysis-"|..|f| - |".html"|] == DecimalString(id)
    ensures EndsWith(f, ".html")
  {
    "dropofflens-analysis-" + DecimalString(id) + ".html"
  }

  /** The export endpoint: 404 unless the analysis exists and has results. */
  function ExportAnalysis(s: DatabaseStorage, id: Id): (r: Response<ExportBody>)
    reads s
    requires s.Valid()
    ensures r.Error? ==> r == Error(NotFound, "Analysis not found or not completed")
    ensures r.Ok? <==> exists k :: 0 <= k < |s.analyses| && s.analyses[k].id == id &&
                                   s.analyses[k].analysisResults.Some?
    ensures r.Ok? ==> r.body.filename == ExportFilename(id)
    ensures r.Ok? ==> exists k :: 0 <= k < |s.analyses| && s.analyses[k].id == id &&
                                  s.analyses[k].analysisResults == Some(r.body.results)
  {
    match FindAnalysis(s.analyses, id)
    case None => Error(NotFound, "Analysis not found or not completed")
    case Some(k) =>
      // every row with that id is the row found
      if s.analyses[k].analysisResults.None? then
        assert forall j :: 0 <= j < |s.analyses| && s.analyses[j].id == id ==> j == k by {
          forall j | 0 <= j < |s.analyses| && s.analyses[j].id == id ensures j == k {
            AnalysisIdsUnique(s.analyses, j, k);
          }
        }
        Error(NotFound, "Analysis not found or not completed")
      else Ok(ExportBody(ExportFilename(s.analyses[k].id), s.analyses[k].analysisResults.value))
  }

  /** The update endpoint: 404 for an unknown id, 403 for anyone but the
      row's owner, storage untouched in both cases; otherwise the supplied
      fields are written. */
  method PatchAnalysis(s: DatabaseStorage, userId: UserId, id: Id, updates: AnalysisUpdates)
    returns (r: Response<FeedbackAnalysis>)
    requires s.Valid()
    modifies s
    ensures s.Valid()
    ensures s.users == old(s.users) && s.teams == old(s.teams)
    ensures s.teamMembers == old(s.teamMembers) && s.comments == old(s.comments)
    ensures old(FindAnalysis(s.analyses, id)).None? ==>
      r == Error(NotFound, "Analysis not found") && s.analyses == old(s.analyses) && s.clock == old(s.clock)
    ensures old(FindAnalysis(s.analyses, id)).Some? && old(s.analyses[FindAnalysis(s.analyses, id).value].userId) != userId ==>
      r == Error(Forbidden, "Not authorized to update this analysis") && s.analyses == old(s.analyses) && s.clock == old(s.clock)
    ensures old(FindAnalysis(s.analyses, id)).Some? && old(s.analyses[FindAnalysis(s.analyses, id).value].userId) == userId ==>
      r.Ok?
    ensures r.Ok? ==>
      var k := old(FindAnalysis(s.analyses, id)).value;
      && old(s.analyses[k].userId) == userId
      && r.body == ApplyUpdates(old(s.analyses[k]), updates, old(s.clock))
      && s.analyses == old(s.analyses)[k := r.body]
  {
    var found := s.GetFeedbackAnalysis(id);
    if found.None? {
      return Error(NotFound, "Analysis not found");
    }
    if found.value.analysis.userId != userId {
      return Error(Forbidden, "Not authorized to update this analysis");
    }
    // the row was just found, so the update finds it
    var updated := s.UpdateAnalysisDetails(id, updates);
    r := Ok(updated.value);
  }

  // ---- limits, GET /api/user/analyses, GET /api/teams/:id/analyses ----

  /** `parseInt(limit) || 50`, then SQL `LIMIT`. `q` is what `parseInt`
      gives: `None` for NaN. NaN and 0 become 50; a negative value reaches
      the database, which refuses it. */
  function EffectiveLimit(q: Option<int>): (r: Result<nat>)
    ensures q.None? || q == Some(0) ==> r == Success(DefaultLimit)
    ensures q.Some? && q.value > 0 ==> r == Success(q.value)
    ensures q.Some? && q.value < 0 ==> r == Failure("LIMIT must not be negative")
    ensures r.Success? ==> r.value > 0
  {
    match q
    case None => Success(DefaultLimit)
    case Some(n) =>
      if n == 0 then Success(DefaultLimit)
      else if n < 0 then Failure("LIMIT must not be negative")
      else Success(n)
  }

  /** The user's history endpoint. */
  function UserAnalyses(s: DatabaseStorage, userId: UserId, q: Option<int>): (r: Response<seq<FeedbackAnalysis>>)
    reads s
    requires s.Valid()
    ensures EffectiveLimit(q).Failure? <==> r.Error?
    ensures r.Error? ==> r == Error(ServerError, EffectiveLimit(q).error)
    ensures r.Ok? ==> r.body == s.GetUserAnalyses(userId, EffectiveLimit(q).value)
    ensures r.Ok? ==> (|r.body| <= EffectiveLimit(q).value &&
      forall k :: 0 <= k < |r.body| ==> r.body[k] in s.analyses && r.body[k].userId == userId)
  {
    match EffectiveLimit(q)
    case Failure(e) => Error(ServerError, e)
    case Success(limit) => Ok(s.GetUserAnalyses(userId, limit))
  }

  /** A team's history endpoint. */
  function TeamAnalyses(s: DatabaseStorage, teamId: Id, q: Option<int>): (r: Response<seq<FeedbackAnalysis>>)
    reads s
    requires s.Valid()
    ensures EffectiveLimit(q).Failure? <==> r.Error?
    ensures r.Error? ==> r == Error(ServerError, EffectiveLimit(q).error)
    ensures r.Ok? ==> r.body == s.GetTeamAnalyses(teamId, EffectiveLimit(q).value)
    ensures r.Ok? ==> (|r.body| <= EffectiveLimit(q).value &&
      forall k :: 0 <= k < |r.body| ==> r.body[k] in s.analyses && r.body[k].teamId == Some(teamId))
  {
    match EffectiveLimit(q)
    case Failure(e) => Error(ServerError, e)
    case Success(limit) => Ok(s.GetTeamAnalyses(teamId, limit))
  }

  // ---- team endpoints ----

  /** Creating a team makes the requester its owner and first member. */
  method CreateTeamRoute(s: DatabaseStorage, userId: UserId, name: string, description: Option<string>)
    returns (r: Response<Team>)
    requires s.Valid()
    modifies s
    ensures s.Valid()
    ensures r.Ok? && r.body.ownerId == userId && r.body.name == name
    ensures s.teams == old(s.teams) + [r.body]
    ensures s.teamMembers == old(s.teamMembers) + [TeamMember(old(s.nextId) + 1, r.body.id, userId, "owner", old(s.clock) + 1)]
    ensures r.body in s.GetUserTeams(userId)
    ensures userId in s.users ==>
      && s.GetTeam(r.body.id).Some?
      && MemberWithUser(TeamMember(old(s.nextId) + 1, r.body.id, userId, "owner", old(s.clock) + 1), s.users[userId])
           in s.GetTeam(r.body.id).value.members
    ensures s.users == old(s.users) && s.analyses == old(s.analyses) && s.comments == old(s.comments)
  {
    var team := s.CreateTeam(name, description, userId);
    var m := s.teamMembers[|s.teamMembers| - 1];
    ElementIn(s.teamMembers, |s.teamMembers| - 1);
    ElementIn(s.teams, |s.teams| - 1);
    assert IsMembership(m, team.id, userId);
    r := Ok(team);
  }

  /** The requester's teams. */
  function UserTeams(s: DatabaseStorage, userId: UserId): (r: Response<seq<Team>>)
    reads s
    requires s.Valid()
    ensures r.Ok? && r.body == s.GetUserTeams(userId)
    ensures forall t :: t in s.teams && (exists m :: m in s.teamMembers && IsMembership(m, t.id, userId)) ==> t in r.body
  {
    Ok(s.GetUserTeams(userId))
  }

  /** One team with its members: 404 for an unknown id. */
  function GetTeamRoute(s: DatabaseStorage, id: Id): (r: Response<TeamWithMembers>)
    reads s
    ensures r.Error? <==> forall k :: 0 <= k < |s.teams| ==> s.teams[k].id != id
    ensures r.Error? ==> r == Error(NotFound, "Team not found")
    ensures r.Ok? ==> r.body.team in s.teams && r.body.team.id == id
    ensures r.Ok? ==> s.GetTeam(id).Some? && r.body == s.GetTeam(id).value
    ensures r.Ok? ==> r.body.members == MembersOf(s.teamMembers, s.users, id) && r.body.owner == s.GetUser(r.body.team.ownerId)
  {
    match s.GetTeam(id)
    case None => Error(NotFound, "Team not found")
    case Some(t) => Ok(t)
  }

  // ---- comment endpoints ----

  /** `themeIndex || null` as the handler writes it: a comment on theme 0 is
      stored as a general comment. */
  function StoredThemeIndexAsWritten(themeIndex: Option<int>): (r: Option<int>)
    ensures themeIndex.Some? && themeIndex.value != 0 ==> r == themeIndex
    ensures themeIndex == Some(0) ==> r.None?
    ensures themeIndex.None? ==> r.None?
  {
    if themeIndex.Some? && themeIndex.value != 0 then themeIndex else None
  }

  /** The theme index to store: the one sent, null when none was (`?? null`). */
  function StoredThemeIndex(themeIndex: Option<int>): (r: Option<int>)
    ensures r == themeIndex
  {
    themeIndex
  }

  /** As written, a comment posted from the panel of the first theme (index 0)
      is stored with a null index: it shows in the general panel and not in
      the panel it was posted from. */
  lemma FirstThemeCommentMisplaced(c: AnalysisComment, user: User, others: seq<CommentWithAuthor>)
    requires c.themeIndex == StoredThemeIndexAsWritten(Some(0))
    ensures CommentWithAuthor(c, user) in VisibleComments(others + [CommentWithAuthor(c, user)], None)
    ensures CommentWithAuthor(c, user) !in VisibleComments(others + [CommentWithAuthor(c, user)], Some(0))
  {
    var cs := others + [CommentWithAuthor(c, user)];
    ElementIn(cs, |cs| - 1);
    ShownInOwnPanel(cs, CommentWithAuthor(c, user));
  }

  /** With the index stored as sent, a comment shows in the panel it was
      posted from and in no other, for every index including 0. */
  lemma CommentShownWherePosted(c: AnalysisComment, user: User, others: seq<CommentWithAuthor>, posted: Option<int>)
    requires c.themeIndex == StoredThemeIndex(posted)
    ensures CommentWithAuthor(c, user) in VisibleComments(others + [CommentWithAuthor(c, user)], posted)
    ensures forall t :: t != posted ==> CommentWithAuthor(c, user) !in VisibleComments(others + [CommentWithAuthor(c, user)], t)
  {
    var cs := others + [CommentWithAuthor(c, user)];
    ElementIn(cs, |cs| - 1);
    ShownInOwnPanel(cs, CommentWithAuthor(c, user));
  }

  /** Posting a comment as written: the posted index goes through
      `themeIndex || null`. The analysis id is not checked against the table
      here; the database's foreign key is not part of this model. */
  method AddCommentAsWritten(s: DatabaseStorage, userId: UserId, analysisId: Id, content: string, themeIndex: Option<int>)
    returns (r: Response<AnalysisComment>)
    requires s.Valid()
    modifies s
    ensures s.Valid()
    ensures r.Ok? && r.body.userId == userId && r.body.analysisId == analysisId
    ensures r.body.content == content && r.body.themeIndex == StoredThemeIndexAsWritten(themeIndex)
    ensures s.comments == old(s.comments) + [r.body]
    ensures s.users == old(s.users) && s.teams == old(s.teams)
    ensures s.teamMembers == old(s.teamMembers) && s.analyses == old(s.analyses)
  {
    var c := s.AddComment(analysisId, userId, StoredThemeIndexAsWritten(themeIndex), content);
    r := Ok(c);
  }

  /** As written, a comment posted through the handler from the first
      theme's panel is listed in the general panel and not in that theme's. */
  method FirstThemeCommentPostedAsWritten(author: User) returns (r: Response<AnalysisComment>, listed: seq<CommentWithAuthor>)
    ensures r.Ok? && listed == [CommentWithAuthor(r.body, author)]
    ensures CommentWithAuthor(r.body, author) in VisibleComments(listed, None)
    ensures CommentWithAuthor(r.body, author) !in VisibleComments(listed, Some(0))
  {
    var s := new DatabaseStorage();
    r := AddCommentAsWritten(s, author.id, 0, "about the first theme", Some(0));
    listed := [CommentWithAuthor(r.body, author)];
    FirstThemeCommentMisplaced(r.body, author, []);
    assert [] + listed == listed;
  }

  /** Posting a comment with the posted index stored as sent (`?? null`). */
  method AddCommentRoute(s: DatabaseStorage, userId: UserId, analysisId: Id, content: string, themeIndex: Option<int>)
    returns (r: Response<AnalysisComment>)
    requires s.Valid()
    modifies s
    ensures s.Valid()
    ensures r.Ok? && r.body.userId == userId && r.body.analysisId == analysisId
    ensures r.body.content == content && r.body.themeIndex == StoredThemeIndex(themeIndex)
    ensures s.comments == old(s.comments) + [r.body]
    ensures s.users == old(s.users) && s.teams == old(s.teams)
    ensures s.teamMembers == old(s.teamMembers) && s.analyses == old(s.analyses)
  {
    var c := s.AddComment(analysisId, userId, StoredThemeIndex(themeIndex), content);
    r := Ok(c);
  }

  /** With the corrected handler, a comment posted from any panel, the first
      theme's included, is listed in that panel and in no other. */
  method CommentPostedWhereSent(author: User, posted: Option<int>) returns (r: Response<AnalysisComment>, listed: seq<CommentWithAuthor>)
    ensures r.Ok? && listed == [CommentWithAuthor(r.body, author)]
    ensures CommentWithAuthor(r.body, author) in VisibleComments(listed, posted)
    ensures forall t :: t != posted ==> CommentWithAuthor(r.body, author) !in VisibleComments(listed, t)
  {
    var s := new DatabaseStorage();
    r := AddCommentRoute(s, author.id, 0, "about a theme", posted);
    listed := [CommentWithAuthor(r.body, author)];
    CommentShownWherePosted(r.body, author, [], posted);
    assert [] + listed == listed;
  }

  /** The comment list of an analysis, oldest first. */
  function ListComments(s: DatabaseStorage, analysisId: Id): (r: Response<seq<CommentWithAuthor>>)
    reads s
    requires s.Valid()
    ensures r.Ok? && r.body == s.GetAnalysisComments(analysisId)
    ensures forall i, j :: 0 <= i < j < |r.body| ==> r.body[i].comment.createdAt < r.body[j].comment.createdAt
  {
    Ok(s.GetAnalysisComments(analysisId))
  }

  /** The content check of the edit endpoint: `content` must be a non-empty
      string (`None` stands for absent or not a string). */
  predicate ContentAccepted(content: Option<string>) {
    content.Some? && content.value != ""
  }

  /** Editing a comment as written: anyone may edit any comment. */
  method PatchCommentAsWritten(s: DatabaseStorage, userId: UserId, id: Id, content: Option<string>)
    returns (r: Response<AnalysisComment>)
    requires s.Valid()
    modifies s
    ensures s.Valid()
    ensures !ContentAccepted(content) ==>
      r == Error(BadRequest, "Content is required") && s.comments == old(s.comments)
    ensures ContentAccepted(content) && old(FindComment(s.comments, id)).Some? ==>
      var k := old(FindComment(s.comments, id)).value;
      r.Ok? && r.body == old(s.comments[k]).(content := content.value, updatedAt := old(s.clock)) &&
      s.comments == old(s.comments)[k := r.body]
    ensures ContentAccepted(content) && old(FindComment(s.comments, id)).None? ==>
      r == Error(ServerError, "Comment with id " + DecimalString(id) + " not found") && s.comments == old(s.comments)
    ensures s.users == old(s.users) && s.teams == old(s.teams)
    ensures s.teamMembers == old(s.teamMembers) && s.analyses == old(s.analyses)
  {
    if !ContentAccepted(content) {
      return Error(BadRequest, "Content is required");
    }
    var updated := s.UpdateComment(id, content.value);
    r := match updated
      case Failure(e) => Error(ServerError, e)
      case Success(c) => Ok(c);
  }

  /** As written, a user who did not write a comment can still rewrite it. */
  method NonAuthorEditsAsWritten() returns (r: Response<AnalysisComment>, author: UserId, editor: UserId)
    ensures author != editor
    ensures r.Ok? && r.body.userId == author && r.body.content == "edited"
  {
    var s := new DatabaseStorage();
    author, editor := "author", "someone else";
    var c := s.AddComment(0, author, None, "original");
    r := PatchCommentAsWritten(s, editor, c.id, Some("edited"));
  }

  /** Editing a comment, author only: anyone else gets a 403 and nothing changes. */
  method PatchCommentRoute(s: DatabaseStorage, userId: UserId, id: Id, content: Option<string>)
    returns (r: Response<AnalysisComment>)
    requires s.Valid()
    modifies s
    ensures s.Valid()
    ensures !ContentAccepted(content) ==>
      r == Error(BadRequest, "Content is required") && s.comments == old(s.comments)
    ensures ContentAccepted(content) && old(FindComment(s.comments, id)).None? ==>
      r == Error(ServerError, "Comment with id " + DecimalString(id) + " not found") && s.comments == old(s.comments)
    ensures ContentAccepted(content) && old(FindComment(s.comments, id)).Some? ==>
      var k := old(FindComment(s.comments, id)).value;
      if old(s.comments[k].userId) != userId then
        r == Error(Forbidden, "Not authorized to update this comment") && s.comments == old(s.comments)
      else
        r.Ok? && r.body == old(s.comments[k]).(content := content.value, updatedAt := old(s.clock)) &&
        s.comments == old(s.comments)[k := r.body]
    ensures r.Ok? ==> r.body.userId == userId
    ensures s.users == old(s.users) && s.teams == old(s.teams)
    ensures s.teamMembers == old(s.teamMembers) && s.analyses == old(s.analyses)
  {
    if !ContentAccepted(content) {
      return Error(BadRequest, "Content is required");
    }
    var found := FindComment(s.comments, id);
    if found.Some? && s.comments[found.value].userId != userId {
      return Error(Forbidden, "Not authorized to update this comment");
    }
    var updated := s.UpdateComment(id, content.value);
    r := match updated
      case Failure(e) => Error(ServerError, e)
      case Success(c) => Ok(c);
  }

  /** Deleting a comment as written: always a success, whoever asks. */
  method DeleteCommentAsWritten(s: DatabaseStorage, userId: UserId, id: Id) returns (r: Response<bool>)
    requires s.Valid()
    modifies s
    ensures s.Valid()
    ensures r == Ok(true)
    ensures s.comments == RemoveComment(old(s.comments), id)
    ensures s.users == old(s.users) && s.teams == old(s.teams)
    ensures s.teamMembers == old(s.teamMembers) && s.analyses == old(s.analyses)
  {
    s.DeleteComment(id);
    r := Ok(true);
  }

  /** Deleting a comment, author only: anyone else gets a 403 and the
      comment stays; an absent comment is a silent success. */
  method DeleteCommentRoute(s: DatabaseStorage, userId: UserId, id: Id) returns (r: Response<bool>)
    requires s.Valid()
    modifies s
    ensures s.Valid()
    ensures old(FindComment(s.comments, id)).Some? && old(s.comments[FindComment(s.comments, id).value].userId) != userId ==>
      r == Error(Forbidden, "Not authorized to delete this comment") && s.comments == old(s.comments)
    ensures r.Ok? ==> r == Ok(true) && s.comments == RemoveComment(old(s.comments), id)
    ensures r.Ok? <==> old(FindComment(s.comments, id)).None? || old(s.comments[FindComment(s.comments, id).value].userId) == userId
    ensures s.users == old(s.users) && s.teams == old(s.teams)
    ensures s.teamMembers == old(s.teamMembers) && s.analyses == old(s.analyses)
  {
    match FindComment(s.comments, id)
    case Some(k) =>
      if s.comments[k].userId != userId {
        return Error(Forbidden, "Not authorized to delete this comment");
      }
      s.DeleteComment(id);
      r := Ok(true);
    case None =>
      s.DeleteComment(id);
      r := Ok(true);
  }
}
