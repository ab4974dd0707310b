# DropOffLens core, modelled in Dafny

DropOffLens turns customer exit feedback into churn themes. Feedback reaches
it in one of two ways: a CSV upload, whose feedback column the server picks out, or a
paste box that splits the text into lines. The server sends the entries to a
language model. It then shapes the reply into themes, checking that each quote
really occurs in the feedback, and stores the analysis. On the client, the
dashboard guards the submit, the history page filters past analyses, the
comment panel shows a theme's discussion, and a chart component draws the themes.

The model has one Dafny module per core source file, plus four supporting modules:

- `Wrappers`: `Option`/`Result`.
- `Text`: ASCII lower-casing, the JavaScript trim whitespace set, `includes`, `split`/`join` on line feeds, and decimal rendering.
- `Sequences`: subsequences, `filter`, `find` and ordered chains.
- `Schema`: the stored records.

The core modules are:

- `CsvParser` (server/services/csvParser.ts): the steps after the CSV library call. It picks the first feedback header, keeps the trimmed non-blank cells in record order, and builds the five-entry preview and the four typed failures.
- `ThemeShaping` (server/services/openai.ts): what happens to the model's reply. It normalises each theme, keeps only quotes that match a feedback entry in either direction, case-insensitively, adds a fallback quote, and sets the counts. The per-theme quote fix-up is a loop over an array of themes, updated in place.
- `Storage` (server/storage.ts): `DatabaseStorage` as a class over in-memory tables. Users are a map; teams, memberships, analyses and comments are sequences in insertion order. Ids come from a counter. A clock field supplies `createdAt`/`updatedAt`, and every write advances it.
- `Routes` (server/routes.ts): the decision logic of the handlers. This covers status codes, messages and defaults, and the order of the storage calls each handler makes.
- `ManualInput`, `Dashboard`, `AnalysisHistory`, `CommentsSection` and `DataVisualization`: the client components. Their React state becomes class fields (`ManualInputBox`, `DashboardState`, `CommentsPanel`). Their derived values become functions.

Outside calls are parameters:

- The CSV library result is a `LibraryParse` value.
- The language-model reply is a `ModelReply`: parsed themes or a thrown error.
- The wall-clock duration of an analysis is `elapsedMs`.
- The current time of the comment panel is `nowMs`, and a calendar date is an opaque string.

## Model

| member | source | states |
|---|---|---|
| CsvParser.FindFeedbackColumn | server/services/csvParser.ts:27-34 | the chosen column is a header whose lower-case form holds feedback/comment/review/message, no earlier header does, and none is chosen exactly when no header does |
| CsvParser.FindFeedbackColumnFrom | server/services/csvParser.ts:29-34 | the `find` scan from a position: the first matching header at or after it, or none at all |
| CsvParser.ExtractEntries | server/services/csvParser.ts:44-47 | at most one entry per record, each non-empty and equal to its own trim |
| CsvParser.ExtractEntriesAppend | server/services/csvParser.ts:44-47 | extraction works record by record: the entries of two record lists are the entries of each, in order |
| CsvParser.ExtractEntriesSingle | server/services/csvParser.ts:45-47 | a record contributes its trimmed chosen-column cell exactly when that cell is a non-blank string |
| CsvParser.ParseCsvContent | server/services/csvParser.ts:10-67 | library error gives "Failed to parse CSV: …"; no records gives "CSV file is empty or invalid"; no feedback header gives a message listing every header joined by ", "; no surviving entry gives "No valid feedback entries found in the CSV file"; a success carries non-empty trimmed data, no longer than the records, with a preview that is its first min(5, n) entries; failures carry no data |
| ManualInput.CleanLines | client/src/components/manual-input.tsx:19-20 | trimming and dropping blank lines leaves no more entries than lines, each non-empty and already trimmed |
| ManualInput.FeedbackEntries | client/src/components/manual-input.tsx:17-20 | every entry is non-empty, trimmed and free of line feeds, and there are at most one more entries than line feeds |
| ManualInput.CleanLinesKeepFeedFree | client/src/components/manual-input.tsx:18-20 | lines without a line feed stay without one after cleaning |
| ManualInput.CleanLinesAppend | client/src/components/manual-input.tsx:19-20 | cleaning works line by line, so entries keep line order |
| ManualInput.CleanLinesSingle | client/src/components/manual-input.tsx:19-20 | one line yields its trim when that is non-empty, and nothing otherwise |
| ManualInput.CleanLinesOfClean | client/src/components/manual-input.tsx:19-20 | cleaning already-clean entries changes nothing |
| ManualInput.SplitBlankLines | client/src/components/manual-input.tsx:17-18 | splitting blank text gives only blank lines |
| ManualInput.CleanBlankLines | client/src/components/manual-input.tsx:19-20 | blank lines yield no entries |
| ManualInput.BlankInputHasNoEntries | client/src/components/manual-input.tsx:17-21 | empty or whitespace-only text yields the empty list |
| ManualInput.EntriesRoundTrip | client/src/components/manual-input.tsx:17-20 | re-splitting the entries joined with line feeds gives back the same entries |
| ManualInput.ManualInputBox.constructor | client/src/components/manual-input.tsx:13 | the box starts empty |
| ManualInput.ManualInputBox.HandleInputChange | client/src/components/manual-input.tsx:15-22 | the text becomes the typed value and the reported entries are that text's entries |
| ManualInput.ManualInputBox.ClearInput | client/src/components/manual-input.tsx:24-27 | the text becomes "" and the reported list is empty, which is the entry list of "" |
| ThemeShaping.Normalize | server/services/openai.ts:58-66 | name, summary, percentage and action are copied; missing quotes become the empty list; `isEdited` is false |
| ThemeShaping.SomeEntryMatches | server/services/openai.ts:72-75 | true exactly when some entry, lower-cased, contains the lower-cased quote or is contained in it |
| ThemeShaping.FilterQuotes | server/services/openai.ts:71-76 | the kept quotes are an order-preserving subsequence of the original ones, every kept quote matches an entry, and no matching quote is lost |
| ThemeShaping.FilterQuotesCounts | server/services/openai.ts:71-76 | every copy of a matching quote is kept and no copy of another is, so repeated quotes survive as often as they occur |
| ThemeShaping.FindRepresentativeFrom | server/services/openai.ts:81-84 | the first entry containing the lower-cased theme name, or whose first 20 lower-cased characters occur in the lower-cased summary; none only when no entry qualifies |
| ThemeShaping.ValidateQuotes | server/services/openai.ts:69-89 | only the quotes change: the surviving quotes, or, when none survive, exactly the first representative entry (nothing when there is none or it is empty); every resulting quote matches an entry |
| ThemeShaping.ShapeThemes | server/services/openai.ts:58-89 | one theme per reply theme, in order, each normalised and with its quotes validated; every remaining quote matches a feedback entry or is the representative entry |
| ThemeShaping.ValidateTheme | server/services/openai.ts:69-89 | the `forEach` step on one theme gives exactly the theme with validated quotes |
| ThemeShaping.AnalyzeFeedbackWithAI | server/services/openai.ts:58-100 | a thrown error becomes a failure whose message starts "Failed to analyze feedback: "; otherwise one theme per reply theme, in order, each normalised and validated; `themesFound` is their number and `totalFeedback` the number of entries; all quotes match entries |
| Storage.FindTeam | server/storage.ts:95-101 | the index of a team with that id, none exactly when no team has it |
| Storage.FindAnalysis | server/storage.ts:182-188 | the index of an analysis with that id, none exactly when no analysis has it |
| Storage.FindComment | server/storage.ts:293-305 | the index of a comment with that id, none exactly when no comment has it |
| Storage.FirstMembership | server/storage.ts:159-170 | the first membership row of that team and user; none exactly when there is no such row |
| Storage.RemoveMembership | server/storage.ts:148-157 | exactly the rows matching both team and user are deleted; the others stay, in order |
| Storage.SetRole | server/storage.ts:159-170 | rows matching team and user get the new role; nothing else in any row changes |
| Storage.RemoveComment | server/storage.ts:310-314 | exactly the comments with that id are deleted; the others stay, in order |
| Storage.ApplyUpdates | server/storage.ts:220-228 | each supplied column (user, team, title, description, feedback data, results, sharing flag, share list, processing time) overwrites the row's value, every other column keeps its value, the id and creation time never change, and `updatedAt` is the write time |
| Storage.Select | server/storage.ts:237-268 | the rows the where-clause selects, in table order, none lost |
| Storage.Newest | server/storage.ts:242-243 | `ORDER BY createdAt DESC LIMIT n`: min(n, rows) rows from the table, newest first, and every row left out is older than every row returned |
| Storage.Query | server/storage.ts:237-268 | at most `limit` matching rows, newest first; a matching row is left out only when the limit is reached and it is older than all returned rows |
| Storage.WithAuthors | server/storage.ts:279-287 | each kept comment paired, in the same order, with the user row of its author |
| Storage.WithUsers | server/storage.ts:103-112 | each kept membership paired, in the same order, with the user row it names |
| Storage.TeamRows | server/storage.ts:128-136 | each kept membership replaced, in the same order, by a team row with the membership's team id |
| Storage.TeamRowsSound | server/storage.ts:128-136 | every team listed has a membership row of the user |
| Storage.TeamRowsComplete | server/storage.ts:128-136 | every team the user has a membership row for is listed |
| Storage.CommentsOf | server/storage.ts:279-291 | the comments of that analysis whose author exists, each joined with its author's row, in ascending `createdAt` order, none lost |
| Storage.MembersOf | server/storage.ts:103-114 | the memberships of that team whose user exists, each joined with the user's row, none lost |
| Storage.TeamsOfUser | server/storage.ts:128-138 | only teams the user belongs to, and every such team is listed |
| Storage.SameKeysKeepOrder | server/storage.ts:159-170 | rewriting a column other than id and join time keeps the membership table ordered and its ids and times below the counters |
| Storage.TeamIdsUnique | server/storage.ts:79-83 | in an ordered team table, ids are unique |
| Storage.RemoveAbsentComment | server/storage.ts:310-314 | deleting an id no comment has leaves the table as it is |
| Storage.DatabaseStorage.constructor | server/storage.ts:56 | the tables start empty and the table invariant holds |
| Storage.DatabaseStorage.GetUser | server/storage.ts:58-61 | the user row with that id, none exactly when it is absent |
| Storage.DatabaseStorage.UpsertUser | server/storage.ts:63-76 | the row is inserted or overwritten with the given fields; `createdAt` survives an overwrite; `updatedAt` is the write time; no other table changes |
| Storage.DatabaseStorage.CreateTeam | server/storage.ts:79-93 | the new team has a fresh id and `ownerId` set to the owner; a membership (team, owner, "owner") is appended; no other row changes |
| Storage.DatabaseStorage.GetTeam | server/storage.ts:95-126 | none exactly when no team has the id; otherwise that team, its members exactly as the membership join gives them (the team's memberships whose user exists, each with that user), and the owner's user row |
| Storage.DatabaseStorage.GetUserTeams | server/storage.ts:128-138 | only and all teams the user is a member of |
| Storage.DatabaseStorage.AddTeamMember | server/storage.ts:140-146 | one membership row with a fresh id is appended; nothing else changes |
| Storage.DatabaseStorage.RemoveTeamMember | server/storage.ts:148-157 | exactly the rows matching both team and user are deleted; nothing else changes |
| Storage.DatabaseStorage.UpdateTeamMemberRole | server/storage.ts:159-171 | matching rows get the role; the first updated row is returned, or nothing when no row matched |
| Storage.DatabaseStorage.CreateFeedbackAnalysis | server/storage.ts:174-180 | one analysis row with a fresh id and the given fields is appended; nothing else changes |
| Storage.DatabaseStorage.GetFeedbackAnalysis | server/storage.ts:182-200 | none exactly when no analysis has the id; otherwise the row, its comments with authors, its user (none for an empty user id), and its team: the team row with the row's team id when one exists, none otherwise |
| Storage.DatabaseStorage.UpdateFeedbackAnalysisResults | server/storage.ts:202-218 | an unknown id fails with "Analysis with id N not found" and changes nothing; otherwise only results, `processingTimeMs` and `updatedAt` of that row change |
| Storage.DatabaseStorage.UpdateAnalysisDetails | server/storage.ts:220-235 | an unknown id fails with "Analysis with id N not found" and changes nothing; otherwise only the supplied fields and `updatedAt` of that row change |
| Storage.DatabaseStorage.GetUserAnalyses | server/storage.ts:237-244 | only that user's analyses, newest first, at most `limit` |
| Storage.DatabaseStorage.GetTeamAnalyses | server/storage.ts:246-253 | only that team's analyses, newest first, at most `limit` |
| Storage.DatabaseStorage.GetSharedAnalyses | server/storage.ts:255-268 | only shared analyses, newest first, at most `limit`, whatever the user id |
| Storage.DatabaseStorage.AddComment | server/storage.ts:271-277 | one comment with a fresh id is appended; nothing else changes |
| Storage.DatabaseStorage.GetAnalysisComments | server/storage.ts:279-291 | the analysis's comments with existing authors, in strictly ascending `createdAt` order |
| Storage.DatabaseStorage.UpdateComment | server/storage.ts:293-308 | an unknown id fails with "Comment with id N not found" and changes nothing; otherwise only `content` and `updatedAt` of that comment change |
| Storage.DatabaseStorage.DeleteComment | server/storage.ts:310-314 | exactly the comments with that id are removed; an absent id is a silent no-op |
| Routes.UploadCsv | server/routes.ts:23-68 | the filter accepts exactly "text/csv" or a name ending in ".csv" (case-sensitive); a missing file is 400 "No file uploaded"; a parse failure is 400 with the parser's error; an accepted file that parses is always answered with the parsed data, the preview, the file name and the entry count, which is positive |
| Routes.TitleOrDefault | server/routes.ts:91 | a missing or empty title becomes "Untitled Analysis"; the stored title is never empty |
| Routes.DescriptionOrNull | server/routes.ts:92 | a missing or empty description is stored as null; any other is kept |
| Routes.PendingRow | server/routes.ts:88-97 | the analysis is created with null results, not shared, no share list, the entries as data, and the title and description defaults |
| Routes.AnalysisIdsUnique | server/routes.ts:105-109 | analysis ids are unique in the table, so the results go to the row just created |
| Routes.AnalyzeFeedback | server/routes.ts:78-121 | an empty entry list is 400 and changes nothing; otherwise the row is created pending; an extraction failure is 500 with the "Failed to analyze feedback: " message and the row keeps null results; a success returns and writes to that same id exactly the reply's themes normalised and with validated quotes, with the duration |
| Routes.GetAnalysis | server/routes.ts:124-137 | 404 "Analysis not found" exactly when no analysis has the id; otherwise that analysis's id, results, creation time and duration |
| Routes.ExportFilename | server/routes.ts:158 | the download name is "dropofflens-analysis-", then the decimal id, then ".html", and nothing else |
| Routes.ExportAnalysis | server/routes.ts:147-159 | 404 "Analysis not found or not completed" unless the analysis exists and has results; a success carries those results and the file name |
| Routes.PatchAnalysis | server/routes.ts:169-186 | 404 for an unknown id and 403 for a requester who is not the owner, storage unchanged in both; the owner of an existing row always succeeds, and a success writes exactly the supplied fields and the update time to that row |
| Routes.EffectiveLimit | server/routes.ts:199 | an absent, non-numeric or zero limit becomes 50, a positive one is kept, and a negative one fails |
| Routes.UserAnalyses | server/routes.ts:196-209 | the user's analyses under the effective limit, newest first; a negative limit is 500 |
| Routes.TeamAnalyses | server/routes.ts:258-270 | the team's analyses under the effective limit, newest first; a negative limit is 500 |
| Routes.CreateTeamRoute | server/routes.ts:212-225 | the new team is owned by the requester, who is its "owner" member, finds it among their teams, and, when the requester has a user row, is listed with that row among the members `getTeam` returns |
| Routes.UserTeams | server/routes.ts:227-239 | every team the requester is a member of |
| Routes.GetTeamRoute | server/routes.ts:241-256 | 404 "Team not found" exactly when no team has the id; otherwise exactly what `getTeam` returns: that team, its members joined with their users, and the owner's user row |
| Routes.StoredThemeIndexAsWritten | server/routes.ts:282 | the logical-or default to null: index 0 is stored as null, other indices are kept |
| Routes.FirstThemeCommentMisplaced | server/routes.ts:282 | a comment posted on the first theme shows in the general panel and not in the first theme's panel |
| Routes.StoredThemeIndex | server/routes.ts:282 | the stored index is the posted one, 0 included |
| Routes.CommentShownWherePosted | server/routes.ts:278-283 | with the corrected index, a comment shows in the panel it was posted from and in no other |
| Routes.AddCommentAsWritten | server/routes.ts:273-292 | the requester's comment on that analysis is appended, its index passed through the logical-or default to null (0 becomes null); nothing else changes |
| Routes.FirstThemeCommentPostedAsWritten | server/routes.ts:278-283 | a comment posted through the handler as written from the first theme's panel is listed in the general panel and not in the first theme's |
| Routes.AddCommentRoute | server/routes.ts:273-292 | the corrected handler: the requester's comment on that analysis is appended with the posted index, 0 included; nothing else changes |
| Routes.CommentPostedWhereSent | server/routes.ts:278-283 | through the corrected handler, a comment posted from any panel is listed in that panel and in no other |
| Routes.ListComments | server/routes.ts:294-304 | the analysis's comments with their authors, in ascending creation order |
| Routes.PatchCommentAsWritten | server/routes.ts:306-321 | missing or empty content is 400 "Content is required"; an unknown id is 500 "Comment with id N not found" with the table unchanged; otherwise the content is written, whoever asks |
| Routes.NonAuthorEditsAsWritten | server/routes.ts:306-321 | a user other than the author edits someone else's comment successfully |
| Routes.PatchCommentRoute | server/routes.ts:306-321 | as written, except that only the author's edit succeeds; anyone else gets 403 and the comment is unchanged |
| Routes.DeleteCommentAsWritten | server/routes.ts:323-333 | always success, removing that id whoever asks |
| Routes.DeleteCommentRoute | server/routes.ts:323-333 | succeeds and removes the id exactly when the comment is absent or the requester wrote it; otherwise 403 and nothing changes |
| Dashboard.AnalyzeDecision | client/src/pages/dashboard.tsx:59-78 | submits exactly the current data iff there are at least 3 entries; an empty list gives "No data to analyze"; 1 or 2 entries give "Insufficient data" |
| Dashboard.EnabledButtonNeverReportsNoData | client/src/pages/dashboard.tsx:59-67 | with the button enabled, a press never reports "No data to analyze" |
| Dashboard.DashboardState.constructor | client/src/pages/dashboard.tsx:15-18 | no data, no file name, no results, no id |
| Dashboard.DashboardState.HandleFileProcessed | client/src/pages/dashboard.tsx:45-50 | the uploaded data and file name are loaded; the results and id are cleared |
| Dashboard.DashboardState.HandleManualDataChange | client/src/pages/dashboard.tsx:52-57 | the pasted entries are loaded, with the file name cleared to ""; the results and id are cleared |
| Dashboard.DashboardState.HandleAnalyze | client/src/pages/dashboard.tsx:59-79 | the guard applied to the current data: exactly that data is submitted when it has at least 3 entries |
| Dashboard.DashboardState.OnSuccess | client/src/pages/dashboard.tsx:28-35 | the response's results and id are shown; the data and file name stay; the toast reports the theme and entry counts |
| Dashboard.DashboardState.OnError | client/src/pages/dashboard.tsx:36-42 | "Analysis failed" with the error's message, or "Failed to analyze feedback" when it has none |
| Dashboard.DashboardState.PreviewCard | client/src/pages/dashboard.tsx:107-109 | the preview shows exactly when there is data, with that data and file name |
| Dashboard.NewDataAfterAnalysis | client/src/pages/dashboard.tsx:28-78 | after a completed analysis, new data clears it, and the next press submits exactly the new data when it has at least 3 entries |
| AnalysisHistory.FilteredAnalyses | client/src/pages/analysis-history.tsx:24-33 | an order-preserving subsequence of the fetched list; every kept item matches the search; "completed", "pending" and "shared" additionally demand results, no results and sharing; every item passing both tests is kept |
| AnalysisHistory.OtherFilterIsAll | client/src/pages/analysis-history.tsx:28-32 | any filter value other than the three status names gives exactly the "all" result |
| AnalysisHistory.EmptySearchShowsAll | client/src/pages/analysis-history.tsx:24-32 | the empty query with "all" returns the fetched list unchanged |
| AnalysisHistory.CompletedPendingPartition | client/src/pages/analysis-history.tsx:28-32 | for a fixed query, the "completed" and "pending" results are disjoint, together hold exactly the "all" result, and their lengths add up to its length |
| AnalysisHistory.EmptyStateFor | client/src/pages/analysis-history.tsx:116-129 | "No analyses yet" with the create button exactly when the query is empty and the filter is "all"; otherwise "No matching analyses found" and the adjust hint |
| AnalysisHistory.NoAnalysesYetIsTruthful | client/src/pages/analysis-history.tsx:112-118 | "No analyses yet" appears only when the user has no analyses at all |
| CommentsSection.VisibleComments | client/src/components/comments-section.tsx:99-101 | exactly the comments whose theme index equals the panel's (null for the general panel), in server order |
| CommentsSection.ViewsDisjoint | client/src/components/comments-section.tsx:99-101 | panels for different theme indices, and a theme panel and the general panel, share no comment |
| CommentsSection.ShownInOwnPanel | client/src/components/comments-section.tsx:99-101 | every comment shows in the panel of its own index and in no other |
| CommentsSection.FormatTimeAgo | client/src/components/comments-section.tsx:123-131 | with h the hours elapsed, rounded down: under one hour (the future included) is "just now", under 24 is h hours, under 168 is h/24 days, otherwise a calendar date; each bucket's bounds are stated |
| CommentsSection.TimeAgoLabel | client/src/components/comments-section.tsx:126-131 | the label texts "Just now", "{h}h ago", "{d}d ago" or the calendar date |
| CommentsSection.CommentsPanel.constructor | client/src/components/comments-section.tsx:21-23 | an empty draft, no comment being edited, an empty edit draft |
| CommentsSection.CommentsPanel.SetNewComment | client/src/components/comments-section.tsx:157 | typing changes only the new-comment draft |
| CommentsSection.CommentsPanel.SetEditContent | client/src/components/comments-section.tsx:228 | typing changes only the edit draft |
| CommentsSection.CommentsPanel.HandleAddComment | client/src/components/comments-section.tsx:103-106 | a blank draft is never sent; any other is sent untrimmed |
| CommentsSection.CommentsPanel.HandleUpdateComment | client/src/components/comments-section.tsx:108-111 | a blank edit is never sent; any other is sent with its comment id |
| CommentsSection.CommentsPanel.StartEditing | client/src/components/comments-section.tsx:113-116 | that comment is being edited and the edit draft is its content |
| CommentsSection.CommentsPanel.CancelEditing | client/src/components/comments-section.tsx:118-121 | no comment is being edited and the edit draft is empty |
| CommentsSection.CommentsPanel.OnAddSuccess | client/src/components/comments-section.tsx:39-41 | a posted comment clears the draft |
| CommentsSection.CommentsPanel.OnUpdateSuccess | client/src/components/comments-section.tsx:61-64 | a saved edit leaves edit mode with an empty edit draft |
| DataVisualization.Round | client/src/components/data-visualization.tsx:21 | `Math.round`: the result is within one half of the argument, halves going up |
| DataVisualization.ChartName | client/src/components/data-visualization.tsx:18 | a name over 20 characters becomes its first 20 characters plus "..." (23 in all); a shorter one is unchanged |
| DataVisualization.ChartData | client/src/components/data-visualization.tsx:17-23 | one entry per theme, in order, with full name and percentage copied, the shortened label, the rounded response count and colour number index mod 6 |
| DataVisualization.ColorsRepeat | client/src/components/data-visualization.tsx:12-22 | entries six apart share a colour |
| DataVisualization.ColorsDistinct | client/src/components/data-visualization.tsx:12-14 | the six colours are all different |
| DataVisualization.NearbyColorsDiffer | client/src/components/data-visualization.tsx:12-22 | entries fewer than six apart have different colours |
| DataVisualization.LabelledSlices | client/src/components/data-visualization.tsx:39 | no more labelled slices than themes |
| DataVisualization.LabelsBoundedBySum | client/src/components/data-visualization.tsx:39 | with non-negative percentages, eight times the number of labelled slices is at most the percentage sum |
| DataVisualization.AtMostTwelveLabels | client/src/components/data-visualization.tsx:39 | percentages adding up to at most 100 allow at most twelve pie labels |
| DataVisualization.Summary | client/src/components/data-visualization.tsx:138-150 | the Themes figure is the number of themes and Responses the total; coverage is the rounded percentage sum, and 0 when there are no themes |

`CommentsSection.ShowsOwnerControls` (client/src/components/comments-section.tsx:203) is the test that shows the edit and delete buttons: the signed-in user's id equals the comment's author id.

## Left out

- The CSV library itself (field splitting, quoting, blank-line skipping, cell trimming) is not modelled; its outcome is the `LibraryParse` input. Cells that are not strings cannot occur in that input.
- The language-model request and its client set-up, the JSON decoding of its reply, and reply themes with a missing name or summary (which fail with a `TypeError` in JavaScript) are not modelled. The reply is taken as a list of well-typed themes or a thrown error.
- The random theme ids, the wall-clock `processingTime` in seconds and the elapsed milliseconds are left out; the milliseconds are a parameter of `Routes.AnalyzeFeedback`.
- Text functions are ASCII: `toLowerCase` maps only 'A'–'Z', and the whitespace set of `trim` is the JavaScript one, with no Unicode normalisation.
- Percentages are exact reals, not IEEE doubles; pie label geometry, `toFixed` and locale date formatting (an opaque string) are left out.
- Storage is in-memory tables, not Postgres. Foreign keys are not enforced. Equal-`createdAt` order is made impossible by a clock that every write advances. Ids are a counter rather than UUIDs. Row order of the join queries is the table order.
- Express, multer and session plumbing are left out. Limits of this plumbing:
  - the requester's id is a parameter;
  - the 5 MB upload limit is not modelled;
  - a file the upload filter rejects is answered by Express's default error handler, modelled as 500 "Only CSV files are allowed";
  - `parseInt` is taken as already applied, so the limit parameter is an optional integer.
- Storage.ApplyUpdates: a supplied `id` or `createdAt` is not modelled. The table invariant (ids and creation times ascending in insertion order) would not survive them, and the update route never sends them.
- Storage.DatabaseStorage.UpdateAnalysisDetails: the update carries every column but `id` and `createdAt`, for the reason given for `Storage.ApplyUpdates`.
- Body validation is not modelled: the update-analysis, comment and team schemas are not part of this model. The analyze-request schema in shared/schema.ts requires at least one entry. It would therefore answer an empty list with a 500 before the handler's 400; the model keeps the handler's 400. An empty team id is modelled as no team id.
- The PDF report body is not modelled, because its generator is not part of this model. Only the file name and the 404 rule are modelled.
- The dashboard's empty-string analysis id is modelled as `None`. The client's toasts, query invalidation and loading flags are left out, except for the dashboard's toasts and its disabled button.
- The upload component checks the ".csv" extension case-insensitively, while the server's filter (server/routes.ts:24) is case-sensitive. The model follows the server.
- The results component requests `/export`, while the server serves `/pdf` (server/routes.ts:147). The model follows the server.
- Storage.DatabaseStorage.GetTeam: inner-join order of members is the membership table order.

## Findings

| source | as written | input that shows it | evidently intended | confidence | as-written member | corrected member |
|---|---|---|---|---|---|---|
| server/routes.ts:282 | the logical-or default to null stores index 0 as null | a comment posted from the first theme's panel (themeIndex 0) through `Routes.AddCommentAsWritten` | store the posted index, 0 included (`?? null`), so the comment shows on the first theme, as `Routes.AddCommentRoute` does | not executed | Routes.FirstThemeCommentPostedAsWritten | Routes.CommentPostedWhereSent |
| server/routes.ts:306-333 | PATCH and DELETE on a comment never compare the requester with the author | user "someone else" edits the comment user "author" posted | only the author may edit or delete, as the panel's owner-only buttons suggest | not executed | Routes.NonAuthorEditsAsWritten | Routes.PatchCommentRoute |
