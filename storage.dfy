/** The persistence layer (`DatabaseStorage`, server/storage.ts) as in-memory
    tables. Each table is a sequence in insertion order; ids come from one
    counter and timestamps from a clock that every write advances, so within a
    table ids and creation times both increase with position. The user table is
    keyed by its primary key. Foreign keys are not enforced by the model. */
module Storage {
  import opened Wrappers
  import opened Text
  import opened Schema
  import opened Sequences

  /** `limit` when a caller gives none. */
  const DefaultLimit := 50

  /** The user fields an upsert supplies. */
  datatype UserData = UserData(
    id: UserId,
    email: string,
    firstName: string,
    lastName: string,
    profileImageUrl: string)

  /** The fields of a new analysis row; id and timestamps are the database's. */
  datatype NewAnalysis = NewAnalysis(
    userId: UserId,
    teamId: Option<Id>,
    title: string,
    description: Option<string>,
    feedbackData: seq<string>,
    analysisResults: Option<AnalysisResults>,
    isShared: bool,
    sharedWith: Option<seq<UserId>>)

  /** The columns an analysis update may supply (`Partial<FeedbackAnalysis>`
      less the key and the creation time); `None` leaves a column alone,
      `Some(None)` sets a nullable one to null. A supplied `updatedAt` is
      always overridden by the write time, so it is not a field here. */
  datatype AnalysisUpdates = AnalysisUpdates(
    userId: Option<UserId>,
    teamId: Option<Option<Id>>,
    title: Option<string>,
    description: Option<Option<string>>,
    feedbackData: Option<seq<string>>,
    analysisResults: Option<Option<AnalysisResults>>,
    isShared: Option<bool>,
    sharedWith: Option<Option<seq<UserId>>>,
    processingTimeMs: Option<Option<int>>)

  /** A membership row joined with its user row. */
  datatype MemberWithUser = MemberWithUser(member: TeamMember, user: User)

  /** A team with its joined members and its owner's user row, if any. */
  datatype TeamWithMembers = TeamWithMembers(team: Team, members: seq<MemberWithUser>, owner: Option<User>)

  /** An analysis with its comments, author and team. */
  datatype AnalysisWithComments = AnalysisWithComments(
    analysis: FeedbackAnalysis,
    comments: seq<CommentWithAuthor>,
    user: Option<User>,
    team: Option<Team>)

  /** Which analyses a history query selects. */
  datatype AnalysisFilter = ByUser(userId: UserId) | ByTeam(teamId: Id) | SharedOnly

  predicate Selects(f: AnalysisFilter, a: FeedbackAnalysis) {
    match f
    case ByUser(u) => a.userId == u
    // `eq(teamId, x)` never holds of a null team
    case ByTeam(t) => a.teamId == Some(t)
    // the user argument plays no part: every shared row is returned
    case SharedOnly => a.isShared
  }

  // Row order within each table: ids, and creation times where rows have
  // them, increase with position.

  predicate EarlierTeam(a: Team, b: Team) { a.id < b.id && a.createdAt < b.createdAt }
  predicate EarlierMember(a: TeamMember, b: TeamMember) { a.id < b.id && a.joinedAt < b.joinedAt }
  predicate EarlierAnalysis(a: FeedbackAnalysis, b: FeedbackAnalysis) { a.id < b.id && a.createdAt < b.createdAt }
  predicate EarlierComment(a: AnalysisComment, b: AnalysisComment) { a.id < b.id && a.createdAt < b.createdAt }

  ghost predicate TeamsOrdered(ts: seq<Team>) { Chain(ts, EarlierTeam) }
  ghost predicate MembersOrdered(ms: seq<TeamMember>) { Chain(ms, EarlierMember) }
  ghost predicate AnalysesOrdered(rs: seq<FeedbackAnalysis>) { Chain(rs, EarlierAnalysis) }
  ghost predicate CommentsOrdered(cs: seq<AnalysisComment>) { Chain(cs, EarlierComment) }

  /** `WHERE id = ?` on each table: the position of the row with that id. */
  function FindTeam(ts: seq<Team>, id: Id): (r: Option<nat>)
    ensures r.Some? ==> r.value < |ts| && ts[r.value].id == id
    ensures r.None? <==> forall k :: 0 <= k < |ts| ==> ts[k].id != id
  {
    FindFirst(ts, (t: Team) => t.id == id)
  }

  function FindAnalysis(rs: seq<FeedbackAnalysis>, id: Id): (r: Option<nat>)
    ensures r.Some? ==> r.value < |rs| && rs[r.value].id == id
    ensures r.None? <==> forall k :: 0 <= k < |rs| ==> rs[k].id != id
  {
    FindFirst(rs, (a: FeedbackAnalysis) => a.id == id)
  }

  function FindComment(cs: seq<AnalysisComment>, id: Id): (r: Option<nat>)
    ensures r.Some? ==> r.value < |cs| && cs[r.value].id == id
    ensures r.None? <==> forall k :: 0 <= k < |cs| ==> cs[k].id != id
  {
    FindFirst(cs, (c: AnalysisComment) => c.id == id)
  }

  predicate IsMembership(m: TeamMember, teamId: Id, userId: UserId) {
    m.teamId == teamId && m.userId == userId
  }

  /** `DELETE FROM team_members WHERE team_id = ? AND user_id = ?`: exactly
      the rows matching both are gone, the others stay in order. */
  function RemoveMembership(ms: seq<TeamMember>, teamId: Id, userId: UserId): (r: seq<TeamMember>)
    ensures IsSubsequence(r, ms)
    ensures forall k :: 0 <= k < |r| ==> r[k] in ms && !IsMembership(r[k], teamId, userId)
    ensures forall m :: m in ms && !IsMembership(m, teamId, userId) ==> m in r
    ensures MembersOrdered(ms) ==> MembersOrdered(r)
  {
    var r := Filter(ms, (m: TeamMember) => !IsMembership(m, teamId, userId));
    SubsequenceMembers(r, ms);
    SubsequenceChain(r, ms, EarlierMember);
    r
  }

  /** `UPDATE team_members SET role = ? WHERE team_id = ? AND user_id = ?`:
      the matching rows take the new role; every row keeps its place and all
      its other fields. */
  function SetRole(ms: seq<TeamMember>, teamId: Id, userId: UserId, role: string): (r: seq<TeamMember>)
    ensures |r| == |ms|
    ensures forall k :: 0 <= k < |r| ==> r[k] == ms[k].(role := r[k].role)
    ensures forall k :: 0 <= k < |r| ==> r[k].role == if IsMembership(ms[k], teamId, userId) then role else ms[k].role
  {
    if |ms| == 0 then []
    else
      var m := if IsMembership(ms[0], teamId, userId) then ms[0].(role := role) else ms[0];
      [m] + SetRole(ms[1..], teamId, userId, role)
  }

  /** Every row's id and creation time were handed out before `nextId` and `clock`. */
  ghost predicate TeamsBelow(ts: seq<Team>, nextId: nat, clock: nat) {
    forall k :: 0 <= k < |ts| ==> ts[k].id < nextId && ts[k].createdAt < clock
  }
  ghost predicate MembersBelow(ms: seq<TeamMember>, nextId: nat, clock: nat) {
    forall k :: 0 <= k < |ms| ==> ms[k].id < nextId && ms[k].joinedAt < clock
  }
  ghost predicate AnalysesBelow(rs: seq<FeedbackAnalysis>, nextId: nat, clock: nat) {
    forall k :: 0 <= k < |rs| ==> rs[k].id < nextId && rs[k].createdAt < clock
  }
  ghost predicate CommentsBelow(cs: seq<AnalysisComment>, nextId: nat, clock: nat) {
    forall k :: 0 <= k < |cs| ==> cs[k].id < nextId && cs[k].createdAt < clock
  }

  /** Rows that keep their ids and join times keep the table's order and
      its bounds. */
  lemma SameKeysKeepOrder(ms: seq<TeamMember>, rs: seq<TeamMember>, nextId: nat, clock: nat)
    requires |rs| == |ms|
    requires forall k :: 0 <= k < |rs| ==> rs[k].id == ms[k].id && rs[k].joinedAt == ms[k].joinedAt
    ensures MembersOrdered(ms) ==> MembersOrdered(rs)
    ensures MembersBelow(ms, nextId, clock) ==> MembersBelow(rs, nextId, clock)
  {
    if MembersOrdered(ms) {
      forall i, j | 0 <= i < j < |rs| ensures EarlierMember(rs[i], rs[j]) {
        assert EarlierMember(ms[i], ms[j]);
      }
    }
  }

  /** The first row matching both team and user, as `returning()` yields it. */
  function FirstMembership(ms: seq<TeamMember>, teamId: Id, userId: UserId): (r: Option<nat>)
    ensures r.Some? ==> r.value < |ms| && IsMembership(ms[r.value], teamId, userId)
    ensures r.Some? ==> forall j :: 0 <= j < r.value ==> !IsMembership(ms[j], teamId, userId)
    ensures r.None? <==> forall j :: 0 <= j < |ms| ==> !IsMembership(ms[j], teamId, userId)
  {
    FindFirst(ms, (m: TeamMember) => IsMembership(m, teamId, userId))
  }

  /** `DELETE FROM analysis_comments WHERE id = ?`: only that id is gone. */
  function RemoveComment(cs: seq<AnalysisComment>, id: Id): (r: seq<AnalysisComment>)
    ensures IsSubsequence(r, cs)
    ensures forall k :: 0 <= k < |r| ==> r[k] in cs && r[k].id != id
    ensures forall c :: c in cs && c.id != id ==> c in r
    ensures CommentsOrdered(cs) ==> CommentsOrdered(r)
  {
    var r := Filter(cs, (c: AnalysisComment) => c.id != id);
    SubsequenceMembers(r, cs);
    SubsequenceChain(r, cs, EarlierComment);
    r
  }

  /** The `SET` of `updateAnalysisDetails`: exactly the supplied fields and
      `updatedAt` change. */
  function ApplyUpdates(a: FeedbackAnalysis, u: AnalysisUpdates, now: Timestamp): (r: FeedbackAnalysis)
    ensures r.userId == if u.userId.Some? then u.userId.value else a.userId
    ensures r.teamId == if u.teamId.Some? then u.teamId.value else a.teamId
    ensures r.title == if u.title.Some? then u.title.value else a.title
    ensures r.description == if u.description.Some? then u.description.value else a.description
    ensures r.feedbackData == if u.feedbackData.Some? then u.feedbackData.value else a.feedbackData
    ensures r.analysisResults == if u.analysisResults.Some? then u.analysisResults.value else a.analysisResults
    ensures r.isShared == if u.isShared.Some? then u.isShared.value else a.isShared
    ensures r.sharedWith == if u.sharedWith.Some? then u.sharedWith.value else a.sharedWith
    ensures r.processingTimeMs == if u.processingTimeMs.Some? then u.processingTimeMs.value else a.processingTimeMs
    ensures r.id == a.id && r.createdAt == a.createdAt && r.updatedAt == now
  {
    FeedbackAnalysis(
      a.id,
      if u.userId.Some? then u.userId.value else a.userId,
      if u.teamId.Some? then u.teamId.value else a.teamId,
      if u.title.Some? then u.title.value else a.title,
      if u.description.Some? then u.description.value else a.description,
      if u.feedbackData.Some? then u.feedbackData.value else a.feedbackData,
      if u.analysisResults.Some? then u.analysisResults.value else a.analysisResults,
      if u.isShared.Some? then u.isShared.value else a.isShared,
      if u.sharedWith.Some? then u.sharedWith.value else a.sharedWith,
      a.createdAt,
      now,
      if u.processingTimeMs.Some? then u.processingTimeMs.value else a.processingTimeMs)
  }

  /** The rows a history query selects, in table order. */
  function Select(rs: seq<FeedbackAnalysis>, f: AnalysisFilter): (r: seq<FeedbackAnalysis>)
    ensures IsSubsequence(r, rs)
    ensures forall k :: 0 <= k < |r| ==> r[k] in rs && Selects(f, r[k])
    ensures forall a :: a in rs && Selects(f, a) ==> a in r
    ensures AnalysesOrdered(rs) ==> AnalysesOrdered(r)
  {
    var r := Filter(rs, (a: FeedbackAnalysis) => Selects(f, a));
    SubsequenceMembers(r, rs);
    SubsequenceChain(r, rs, EarlierAnalysis);
    r
  }

  /** `ORDER BY created_at DESC LIMIT n` over rows kept in creation order:
      at most `n` rows, newest first, and every row left out is older than
      every row returned. */
  function Newest(rs: seq<FeedbackAnalysis>, limit: nat): (r: seq<FeedbackAnalysis>)
    requires AnalysesOrdered(rs)
    ensures |r| == Min(limit, |rs|)
    ensures forall k :: 0 <= k < |r| ==> r[k] in rs
    ensures forall i, j :: 0 <= i < j < |r| ==> r[i].createdAt > r[j].createdAt
    ensures forall a :: a in rs && a !in r ==> forall k :: 0 <= k < |r| ==> a.createdAt < r[k].createdAt
  {
    var rev := Reverse(rs);
    var r := if limit < |rev| then rev[..limit] else rev;
    assert forall k :: 0 <= k < |r| ==> r[k] == rs[|rs| - 1 - k];
    forall a | a in rs && a !in r
      ensures forall k :: 0 <= k < |r| ==> a.createdAt < r[k].createdAt
    {
      var j :| 0 <= j < |rs| && rs[j] == a;
      // `a` sits at position |rs| - 1 - j of the reversed rows, past the limit
      var p := |rs| - 1 - j;
      assert p >= |r| by {
        if p < |r| {
          ElementIn(r, p);
          assert false;
        }
      }
    }
    r
  }

  /** A history query: the selected rows, newest first, at most `limit`. */
  function Query(rs: seq<FeedbackAnalysis>, f: AnalysisFilter, limit: nat): (r: seq<FeedbackAnalysis>)
    requires AnalysesOrdered(rs)
    ensures |r| <= limit
    ensures forall k :: 0 <= k < |r| ==> r[k] in rs && Selects(f, r[k])
    ensures forall i, j :: 0 <= i < j < |r| ==> r[i].createdAt > r[j].createdAt
    // a selected row is left out only when `limit` rows newer than it are returned
    ensures forall a :: a in rs && Selects(f, a) && a !in r ==>
      |r| == limit && forall k :: 0 <= k < |r| ==> a.createdAt < r[k].createdAt
  {
    var selected := Select(rs, f);
    var r := Newest(selected, limit);
    assert |r| < limit ==> r == Reverse(selected) by {
      if |r| < limit {
        assert |r| == |selected|;
      }
    }
    r
  }

  /** Each comment joined with its author's row. */
  function WithAuthors(kept: seq<AnalysisComment>, users: map<UserId, User>): (r: seq<CommentWithAuthor>)
    requires forall k :: 0 <= k < |kept| ==> kept[k].userId in users
    ensures |r| == |kept|
    ensures forall k :: 0 <= k < |r| ==> r[k].comment == kept[k] && r[k].user == users[kept[k].userId]
  {
    seq(|kept|, k requires 0 <= k < |kept| => CommentWithAuthor(kept[k], users[kept[k].userId]))
  }

  /** The comments of one analysis joined with their authors (an inner join:
      a comment whose author has no user row is left out), in table order. */
  function CommentsOf(cs: seq<AnalysisComment>, users: map<UserId, User>, analysisId: Id): (r: seq<CommentWithAuthor>)
    ensures |r| <= |cs|
    ensures forall k :: 0 <= k < |r| ==>
      && r[k].comment in cs
      && r[k].comment.analysisId == analysisId
      && r[k].comment.userId in users
      && r[k].user == users[r[k].comment.userId]
    ensures forall c :: c in cs && c.analysisId == analysisId && c.userId in users ==>
      CommentWithAuthor(c, users[c.userId]) in r
    ensures CommentsOrdered(cs) ==>
      forall i, j :: 0 <= i < j < |r| ==> r[i].comment.createdAt < r[j].comment.createdAt
  {
    var kept := Filter(cs, (c: AnalysisComment) => c.analysisId == analysisId && c.userId in users);
    SubsequenceMembers(kept, cs);
    SubsequenceLength(kept, cs);
    SubsequenceChain(kept, cs, EarlierComment);
    var r := WithAuthors(kept, users);
    forall k | 0 <= k < |r|
      ensures r[k].comment in cs
    {
      ElementIn(kept, k);
    }
    forall c | c in cs && c.analysisId == analysisId && c.userId in users
      ensures CommentWithAuthor(c, users[c.userId]) in r
    {
      var k :| 0 <= k < |kept| && kept[k] == c;
      ElementIn(r, k);
    }
    r
  }

  /** Each membership row joined with its user's row. */
  function WithUsers(kept: seq<TeamMember>, users: map<UserId, User>): (r: seq<MemberWithUser>)
    requires forall k :: 0 <= k < |kept| ==> kept[k].userId in users
    ensures |r| == |kept|
    ensures forall k :: 0 <= k < |r| ==> r[k].member == kept[k] && r[k].user == users[kept[k].userId]
  {
    seq(|kept|, k requires 0 <= k < |kept| => MemberWithUser(kept[k], users[kept[k].userId]))
  }

  /** The membership rows of one team joined with their users (inner join). */
  function MembersOf(ms: seq<TeamMember>, users: map<UserId, User>, teamId: Id): (r: seq<MemberWithUser>)
    ensures |r| <= |ms|
    ensures forall k :: 0 <= k < |r| ==>
      && r[k].member in ms
      && r[k].member.teamId == teamId
      && r[k].member.userId in users
      && r[k].user == users[r[k].member.userId]
    ensures forall m :: m in ms && m.teamId == teamId && m.userId in users ==>
      MemberWithUser(m, users[m.userId]) in r
  {
    var kept := Filter(ms, (m: TeamMember) => m.teamId == teamId && m.userId in users);
    SubsequenceMembers(kept, ms);
    SubsequenceLength(kept, ms);
    var r := WithUsers(kept, users);
    forall k | 0 <= k < |r|
      ensures r[k].member in ms
    {
      ElementIn(kept, k);
    }
    forall m | m in ms && m.teamId == teamId && m.userId in users
      ensures MemberWithUser(m, users[m.userId]) in r
    {
      var k :| 0 <= k < |kept| && kept[k] == m;
      ElementIn(r, k);
    }
    r
  }

  /** The team row of each membership row, in order. */
  function TeamRows(kept: seq<TeamMember>, ts: seq<Team>): (r: seq<Team>)
    requires forall k :: 0 <= k < |kept| ==> FindTeam(ts, kept[k].teamId).Some?
    ensures |r| == |kept|
    ensures forall k :: 0 <= k < |r| ==> r[k] in ts && r[k].id == kept[k].teamId
  {
    var r := seq(|kept|, k requires 0 <= k < |kept| => ts[FindTeam(ts, kept[k].teamId).value]);
    forall k | 0 <= k < |r|
      ensures r[k] in ts
    {
      ElementIn(ts, FindTeam(ts, kept[k].teamId).value);
    }
    r
  }

  /** The teams a user belongs to: one team per membership row of the user
      whose team exists, in membership order. */
  function TeamsOfUser(ms: seq<TeamMember>, ts: seq<Team>, userId: UserId): (r: seq<Team>)
    requires TeamsOrdered(ts)
    ensures |r| <= |ms|
    ensures forall k :: 0 <= k < |r| ==>
      r[k] in ts && exists m :: m in ms && IsMembership(m, r[k].id, userId)
    ensures forall m, t :: m in ms && t in ts && IsMembership(m, t.id, userId) ==> t in r
  {
    var kept := Filter(ms, (m: TeamMember) => JoinsTeam(m, ts, userId));
    SubsequenceMembers(kept, ms);
    SubsequenceLength(kept, ms);
    assert forall k :: 0 <= k < |kept| ==> JoinsTeam(kept[k], ts, userId);
    TeamRowsSound(ms, ts, userId, kept);
    TeamRowsComplete(ms, ts, userId, kept);
    TeamRows(kept, ts)
  }

  /** Some membership row links the user to the team. */
  predicate HasMembership(ms: seq<TeamMember>, teamId: Id, userId: UserId) {
    exists m :: m in ms && IsMembership(m, teamId, userId)
  }

  /** Every team joined in comes from a membership row of the user. */
  lemma TeamRowsSound(ms: seq<TeamMember>, ts: seq<Team>, userId: UserId, kept: seq<TeamMember>)
    requires forall k :: 0 <= k < |kept| ==>
      kept[k] in ms && kept[k].userId == userId && FindTeam(ts, kept[k].teamId).Some?
    ensures forall k :: 0 <= k < |kept| ==> HasMembership(ms, TeamRows(kept, ts)[k].id, userId)
  {
    var r := TeamRows(kept, ts);
    forall k | 0 <= k < |kept|
      ensures HasMembership(ms, r[k].id, userId)
    {
      var m := kept[k];
      assert r[k].id == m.teamId;
      assert m in ms && IsMembership(m, r[k].id, userId);
    }
  }

  /** Every team of a membership row of the user is joined in. */
  lemma TeamRowsComplete(ms: seq<TeamMember>, ts: seq<Team>, userId: UserId, kept: seq<TeamMember>)
    requires TeamsOrdered(ts)
    requires forall k :: 0 <= k < |kept| ==> FindTeam(ts, kept[k].teamId).Some?
    requires forall m :: m in ms && JoinsTeam(m, ts, userId) ==> m in kept
    ensures forall m, t :: m in ms && t in ts && IsMembership(m, t.id, userId) ==> t in TeamRows(kept, ts)
  {
    var r := TeamRows(kept, ts);
    forall m, t | m in ms && t in ts && IsMembership(m, t.id, userId)
      ensures t in r
    {
      var j :| 0 <= j < |ts| && ts[j] == t;
      assert JoinsTeam(m, ts, userId);
      var k :| 0 <= k < |kept| && kept[k] == m;
      var i :| 0 <= i < |ts| && ts[i] == r[k];
      TeamIdsUnique(ts, i, j);
      ElementIn(r, k);
    }
  }

  /** A membership row of the user whose team exists (the inner join's test). */
  predicate JoinsTeam(m: TeamMember, ts: seq<Team>, userId: UserId) {
    m.userId == userId && FindTeam(ts, m.teamId).Some?
  }

  /** Team ids are unique in an ordered team table. */
  lemma TeamIdsUnique(ts: seq<Team>, i: nat, j: nat)
    requires TeamsOrdered(ts) && i < |ts| && j < |ts| && ts[i].id == ts[j].id
    ensures i == j
  {
  }

  /** The database: one field per table. */
  class DatabaseStorage {
    var users: map<UserId, User>
    var teams: seq<Team>
    var teamMembers: seq<TeamMember>
    var analyses: seq<FeedbackAnalysis>
    var comments: seq<AnalysisComment>
    /** The next id to hand out. */
    var nextId: Id
    /** The time the next write is stamped with. */
    var clock: Timestamp

    /** Ids are fresh and rows sit in creation order. */
    ghost predicate Valid()
      reads this
    {
      && TeamsOrdered(teams) && MembersOrdered(teamMembers)
      && AnalysesOrdered(analyses) && CommentsOrdered(comments)
      && TeamsBelow(teams, nextId, clock) && MembersBelow(teamMembers, nextId, clock)
      && AnalysesBelow(analyses, nextId, clock) && CommentsBelow(comments, nextId, clock)
    }

    constructor ()
      ensures Valid()
      ensures users == map[] && teams == [] && teamMembers == [] && analyses == [] && comments == []
    {
      users := map[];
      teams := [];
      teamMembers := [];
      analyses := [];
      comments := [];
      nextId := 0;
      clock := 0;
    }

    /** `getUser`. */
    function GetUser(id: UserId): (r: Option<User>)
      reads this
      ensures r.Some? <==> id in users
      ensures r.Some? ==> r.value == users[id]
    {
      if id in users then Some(users[id]) else None
    }

    /** `upsertUser`: insert, or on a clash of ids overwrite the supplied
        fields and `updatedAt`, keeping `createdAt`. */
    method UpsertUser(data: UserData) returns (u: User)
      requires Valid()
      modifies this
      ensures Valid()
      ensures u.id == data.id && u.email == data.email && u.firstName == data.firstName
      ensures u.lastName == data.lastName && u.profileImageUrl == data.profileImageUrl
      ensures u.updatedAt == old(clock)
      ensures u.createdAt == if data.id in old(users) then old(users[data.id].createdAt) else old(clock)
      ensures users == old(users)[data.id := u]
      ensures teams == old(teams) && teamMembers == old(teamMembers)
      ensures analyses == old(analyses) && comments == old(comments)
      ensures nextId == old(nextId) && clock == old(clock) + 1
    {
      var created := if data.id in users then users[data.id].createdAt else clock;
      u := User(data.id, data.email, data.firstName, data.lastName, data.profileImageUrl, created, clock);
      users := users[data.id := u];
      clock := clock + 1;
    }

    /** `createTeam`: the team row, then the owner's membership row. */
    method CreateTeam(name: string, description: Option<string>, ownerId: UserId) returns (team: Team)
      requires Valid()
      modifies this
      ensures Valid()
      ensures team == Team(old(nextId), name, description, ownerId, old(clock))
      ensures teams == old(teams) + [team]
      ensures teamMembers == old(teamMembers) + [TeamMember(old(nextId) + 1, team.id, ownerId, "owner", old(clock) + 1)]
      ensures users == old(users) && analyses == old(analyses) && comments == old(comments)
      ensures nextId == old(nextId) + 2 && clock == old(clock) + 2
    {
      team := Team(nextId, name, description, ownerId, clock);
      teams := teams + [team];
      var owner := TeamMember(nextId + 1, team.id, ownerId, "owner", clock + 1);
      teamMembers := teamMembers + [owner];
      nextId := nextId + 2;
      clock := clock + 2;
    }

    /** `getTeam`. */
    function GetTeam(id: Id): (r: Option<TeamWithMembers>)
      reads this
      ensures r.None? <==> forall k :: 0 <= k < |teams| ==> teams[k].id != id
      ensures r.Some? ==> r.value.team in teams && r.value.team.id == id
      ensures r.Some? ==> forall k :: 0 <= k < |r.value.members| ==>
        r.value.members[k].member in teamMembers && r.value.members[k].member.teamId == id
      ensures r.Some? ==> r.value.members == MembersOf(teamMembers, users, id)
      ensures r.Some? ==> r.value.owner == GetUser(r.value.team.ownerId)
    {
      match FindTeam(teams, id)
      case None => None
      case Some(k) =>
        var team := teams[k];
        Some(TeamWithMembers(team, MembersOf(teamMembers, users, id), GetUser(team.ownerId)))
    }

    /** `getUserTeams`. */
    function GetUserTeams(userId: UserId): (r: seq<Team>)
      reads this
      requires Valid()
      ensures forall k :: 0 <= k < |r| ==>
        r[k] in teams && exists m :: m in teamMembers && IsMembership(m, r[k].id, userId)
      ensures forall m, t :: m in teamMembers && t in teams && IsMembership(m, t.id, userId) ==> t in r
    {
      TeamsOfUser(teamMembers, teams, userId)
    }

    /** `addTeamMember`. */
    method AddTeamMember(teamId: Id, userId: UserId, role: string) returns (m: TeamMember)
      requires Valid()
      modifies this
      ensures Valid()
      ensures m == TeamMember(old(nextId), teamId, userId, role, old(clock))
      ensures teamMembers == old(teamMembers) + [m]
      ensures users == old(users) && teams == old(teams) && analyses == old(analyses) && comments == old(comments)
      ensures nextId == old(nextId) + 1 && clock == old(clock) + 1
    {
      m := TeamMember(nextId, teamId, userId, role, clock);
      teamMembers := teamMembers + [m];
      nextId := nextId + 1;
      clock := clock + 1;
    }

    /** `removeTeamMember`. */
    method RemoveTeamMember(teamId: Id, userId: UserId)
      requires Valid()
      modifies this
      ensures Valid()
      ensures teamMembers == RemoveMembership(old(teamMembers), teamId, userId)
      ensures users == old(users) && teams == old(teams) && analyses == old(analyses) && comments == old(comments)
      ensures nextId == old(nextId) && clock == old(clock)
    {
      teamMembers := RemoveMembership(teamMembers, teamId, userId);
    }

    /** `updateTeamMemberRole`: the first updated row, or `None` (`undefined`)
        when no row matches; nothing is thrown. */
    method UpdateTeamMemberRole(teamId: Id, userId: UserId, role: string) returns (r: Option<TeamMember>)
      requires Valid()
      modifies this
      ensures Valid()
      ensures teamMembers == SetRole(old(teamMembers), teamId, userId, role)
      ensures r.None? <==> old(FirstMembership(teamMembers, teamId, userId)).None?
      ensures r.Some? ==> r.value == teamMembers[old(FirstMembership(teamMembers, teamId, userId)).value]
      ensures users == old(users) && teams == old(teams) && analyses == old(analyses) && comments == old(comments)
      ensures nextId == old(nextId) && clock == old(clock)
    {
      var found := FirstMembership(teamMembers, teamId, userId);
      var updated := SetRole(teamMembers, teamId, userId, role);
      SameKeysKeepOrder(teamMembers, updated, nextId, clock);
      teamMembers := updated;
      r := if found.Some? then Some(updated[found.value]) else None;
    }

    /** `createFeedbackAnalysis`. */
    method CreateFeedbackAnalysis(input: NewAnalysis) returns (a: FeedbackAnalysis)
      requires Valid()
      modifies this
      ensures Valid()
      ensures a == FeedbackAnalysis(old(nextId), input.userId, input.teamId, input.title, input.description,
                                    input.feedbackData, input.analysisResults, input.isShared, input.sharedWith,
                                    old(clock), old(clock), None)
      ensures analyses == old(analyses) + [a]
      ensures users == old(users) && teams == old(teams) && teamMembers == old(teamMembers) && comments == old(comments)
      ensures nextId == old(nextId) + 1 && clock == old(clock) + 1
    {
      a := FeedbackAnalysis(nextId, input.userId, input.teamId, input.title, input.description,
                            input.feedbackData, input.analysisResults, input.isShared, input.sharedWith,
                            clock, clock, None);
      analyses := analyses + [a];
      nextId := nextId + 1;
      clock := clock + 1;
    }

    /** `getFeedbackAnalysis`: the row with its comments, its author when the
        row names one, and its team when it has one. */
    function GetFeedbackAnalysis(id: Id): (r: Option<AnalysisWithComments>)
      reads this
      ensures r.None? <==> forall k :: 0 <= k < |analyses| ==> analyses[k].id != id
      ensures r.Some? ==> r.value.analysis in analyses && r.value.analysis.id == id
      ensures r.Some? ==> r.value.comments == CommentsOf(comments, users, id)
      ensures r.Some? ==> r.value.user == if r.value.analysis.userId == "" then None else GetUser(r.value.analysis.userId)
      ensures r.Some? && r.value.analysis.teamId.None? ==> r.value.team.None?
      ensures r.Some? && r.value.team.Some? ==>
        r.value.team.value in teams && Some(r.value.team.value.id) == r.value.analysis.teamId
      ensures r.Some? && r.value.analysis.teamId.Some? ==>
        (r.value.team.Some? <==> FindTeam(teams, r.value.analysis.teamId.value).Some?)
      ensures r.Some? && r.value.analysis.teamId.Some? && FindTeam(teams, r.value.analysis.teamId.value).Some? ==>
        r.value.team == Some(teams[FindTeam(teams, r.value.analysis.teamId.value).value])
    {
      match FindAnalysis(analyses, id)
      case None => None
      case Some(k) =>
        var a := analyses[k];
        var user := if a.userId == "" then None else GetUser(a.userId);
        var team := if a.teamId.None? then None
                    else match FindTeam(teams, a.teamId.value)
                      case None => None
                      case Some(j) => Some(teams[j]);
        Some(AnalysisWithComments(a, CommentsOf(comments, users, id), user, team))
    }

    /** `updateFeedbackAnalysisResults`: sets the results, the processing time
        and `updatedAt` of that row and nothing else; fails, changing nothing,
        when no row has the id. */
    method UpdateFeedbackAnalysisResults(id: Id, results: AnalysisResults, processingTimeMs: int)
      returns (r: Result<FeedbackAnalysis>)
      requires Valid()
      modifies this
      ensures Valid()
      ensures r.Failure? <==> old(FindAnalysis(analyses, id)).None?
      ensures r.Failure? ==>
        r.error == "Analysis with id " + DecimalString(id) + " not found" &&
        analyses == old(analyses) && clock == old(clock)
      ensures r.Success? ==>
        var k := old(FindAnalysis(analyses, id)).value;
        && r.value == old(analyses[k]).(analysisResults := Some(results),
                                        processingTimeMs := Some(processingTimeMs),
                                        updatedAt := old(clock))
        && analyses == old(analyses)[k := r.value]
        && clock == old(clock) + 1
      ensures users == old(users) && teams == old(teams) && teamMembers == old(teamMembers) && comments == old(comments)
      ensures nextId == old(nextId)
    {
      match FindAnalysis(analyses, id)
      case None =>
        r := Failure("Analysis with id " + DecimalString(id) + " not found");
      case Some(k) =>
        var row := analyses[k].(analysisResults := Some(results),
                                processingTimeMs := Some(processingTimeMs),
                                updatedAt := clock);
        analyses := analyses[k := row];
        clock := clock + 1;
        r := Success(row);
    }

    /** `updateAnalysisDetails`: the supplied fields and `updatedAt` of that
        row; fails, changing nothing, when no row has the id. */
    method UpdateAnalysisDetails(id: Id, updates: AnalysisUpdates) returns (r: Result<FeedbackAnalysis>)
      requires Valid()
      modifies this
      ensures Valid()
      ensures r.Failure? <==> old(FindAnalysis(analyses, id)).None?
      ensures r.Failure? ==>
        r.error == "Analysis with id " + DecimalString(id) + " not found" &&
        analyses == old(analyses) && clock == old(clock)
      ensures r.Success? ==>
        var k := old(FindAnalysis(analyses, id)).value;
        && r.value == ApplyUpdates(old(analyses[k]), updates, old(clock))
        && analyses == old(analyses)[k := r.value]
        && clock == old(clock) + 1
      ensures users == old(users) && teams == old(teams) && teamMembers == old(teamMembers) && comments == old(comments)
      ensures nextId == old(nextId)
    {
      match FindAnalysis(analyses, id)
      case None =>
        r := Failure("Analysis with id " + DecimalString(id) + " not found");
      case Some(k) =>
        var row := ApplyUpdates(analyses[k], updates, clock);
        analyses := analyses[k := row];
        clock := clock + 1;
        r := Success(row);
    }

    /** `getUserAnalyses`. */
    function GetUserAnalyses(userId: UserId, limit: nat): (r: seq<FeedbackAnalysis>)
      reads this
      requires Valid()
      ensures r == Query(analyses, ByUser(userId), limit)
      ensures forall k :: 0 <= k < |r| ==> r[k] in analyses && r[k].userId == userId
    {
      Query(analyses, ByUser(userId), limit)
    }

    /** `getTeamAnalyses`. */
    function GetTeamAnalyses(teamId: Id, limit: nat): (r: seq<FeedbackAnalysis>)
      reads this
      requires Valid()
      ensures r == Query(analyses, ByTeam(teamId), limit)
      ensures forall k :: 0 <= k < |r| ==> r[k] in analyses && r[k].teamId == Some(teamId)
    {
      Query(analyses, ByTeam(teamId), limit)
    }

    /** `getSharedAnalyses`: every shared row, whoever asks. */
    function GetSharedAnalyses(userId: UserId, limit: nat): (r: seq<FeedbackAnalysis>)
      reads this
      requires Valid()
      ensures r == Query(analyses, SharedOnly, limit)
      ensures forall k :: 0 <= k < |r| ==> r[k] in analyses && r[k].isShared
    {
      Query(analyses, SharedOnly, limit)
    }

    /** `addComment`. */
    method AddComment(analysisId: Id, userId: UserId, themeIndex: Option<int>, content: string)
      returns (c: AnalysisComment)
      requires Valid()
      modifies this
      ensures Valid()
      ensures c == AnalysisComment(old(nextId), analysisId, userId, themeIndex, content, old(clock), old(clock))
      ensures comments == old(comments) + [c]
      ensures users == old(users) && teams == old(teams) && teamMembers == old(teamMembers) && analyses == old(analyses)
      ensures nextId == old(nextId) + 1 && clock == old(clock) + 1
    {
      c := AnalysisComment(nextId, analysisId, userId, themeIndex, content, clock, clock);
      comments := comments + [c];
      nextId := nextId + 1;
      clock := clock + 1;
    }

    /** `getAnalysisComments`: oldest first. */
    function GetAnalysisComments(analysisId: Id): (r: seq<CommentWithAuthor>)
      reads this
      requires Valid()
      ensures r == CommentsOf(comments, users, analysisId)
      ensures forall i, j :: 0 <= i < j < |r| ==> r[i].comment.createdAt < r[j].comment.createdAt
    {
      CommentsOf(comments, users, analysisId)
    }

    /** `updateComment`: content and `updatedAt` of that comment; fails,
        changing nothing, when no comment has the id. */
    method UpdateComment(id: Id, content: string) returns (r: Result<AnalysisComment>)
      requires Valid()
      modifies this
      ensures Valid()
      ensures r.Failure? <==> old(FindComment(comments, id)).None?
      ensures r.Failure? ==>
        r.error == "Comment with id " + DecimalString(id) + " not found" &&
        comments == old(comments) && clock == old(clock)
      ensures r.Success? ==>
        var k := old(FindComment(comments, id)).value;
        && r.value == old(comments[k]).(content := content, updatedAt := old(clock))
        && comments == old(comments)[k := r.value]
        && clock == old(clock) + 1
      ensures users == old(users) && teams == old(teams) && teamMembers == old(teamMembers) && analyses == old(analyses)
      ensures nextId == old(nextId)
    {
      match FindComment(comments, id)
      case None =>
        r := Failure("Comment with id " + DecimalString(id) + " not found");
      case Some(k) =>
        var row := comments[k].(content := content, updatedAt := clock);
        comments := comments[k := row];
        clock := clock + 1;
        r := Success(row);
    }

    /** `deleteComment`: removes that comment, and does nothing when it is absent. */
    method DeleteComment(id: Id)
      requires Valid()
      modifies this
      ensures Valid()
      ensures comments == RemoveComment(old(comments), id)
      ensures users == old(users) && teams == old(teams) && teamMembers == old(teamMembers) && analyses == old(analyses)
      ensures nextId == old(nextId) && clock == old(clock)
    {
      comments := RemoveComment(comments, id);
    }
  }

  /** Deleting an id no comment has leaves the table as it was. */
  lemma {:induction false} RemoveAbsentComment(cs: seq<AnalysisComment>, id: Id)
    requires forall k :: 0 <= k < |cs| ==> cs[k].id != id
    ensures RemoveComment(cs, id) == cs
    decreases |cs|
  {
    if |cs| > 0 {
      RemoveAbsentComment(cs[1..], id);
      assert cs == [cs[0]] + cs[1..];
    }
  }
}
