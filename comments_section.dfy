/** The comment panel of an analysis (client/src/components/comments-section.tsx):
    which fetched comments a panel shows, the blank-text guards on sending,
    the edit state, and the relative-time label of a comment. */
module CommentsSection {
  import opened Wrappers
  import opened Text
  import opened Schema
  import opened Sequences

  /** The comments a panel shows: with a theme index, the comments on that
      theme; without one, the general comments (null theme index). In both
      cases that is the comments whose theme index equals the panel's. */
  function VisibleComments(comments: seq<CommentWithAuthor>, themeIndex: Option<int>): (r: seq<CommentWithAuthor>)
    ensures IsSubsequence(r, comments)
    ensures forall k :: 0 <= k < |r| ==> r[k].comment.themeIndex == themeIndex
    ensures forall c :: c in comments && c.comment.themeIndex == themeIndex ==> c in r
  {
    Filter(comments, (c: CommentWithAuthor) => c.comment.themeIndex == themeIndex)
  }

  /** No comment shows in two panels: the views of distinct theme indices,
      and of a theme index and the general panel, are disjoint. */
  lemma ViewsDisjoint(comments: seq<CommentWithAuthor>, a: Option<int>, b: Option<int>)
    requires a != b
    ensures forall c :: c in VisibleComments(comments, a) ==> c !in VisibleComments(comments, b)
  {
    var va := VisibleComments(comments, a);
    var vb := VisibleComments(comments, b);
    forall c | c in va
      ensures c !in vb
    {
      var i :| 0 <= i < |va| && va[i] == c;
      assert c.comment.themeIndex == a;
    }
  }

  /** Every comment of the list shows in exactly the panel of its own theme index. */
  lemma ShownInOwnPanel(comments: seq<CommentWithAuthor>, c: CommentWithAuthor)
    requires c in comments
    ensures c in VisibleComments(comments, c.comment.themeIndex)
    ensures forall t :: t != c.comment.themeIndex ==> c !in VisibleComments(comments, t)
  {
    forall t | t != c.comment.themeIndex
      ensures c !in VisibleComments(comments, t)
    {
      ViewsDisjoint(comments, c.comment.themeIndex, t);
    }
  }

  const MsPerHour := 3600000
  const HoursPerDay := 24
  /** Past a week the label is a calendar date. */
  const HoursPerWeek := 168

  /** The relative-time buckets of `formatTimeAgo`. */
  datatype TimeAgo = JustNow | HoursAgo(hours: int) | DaysAgo(days: int) | CalendarDate

  /** `formatTimeAgo` on millisecond times: whole hours elapsed, rounded down
      (`Math.floor`; Dafny's division rounds down for a positive divisor). */
  function FormatTimeAgo(nowMs: int, dateMs: int): (r: TimeAgo)
    // under an hour, and any time in the future
    ensures r == JustNow <==> nowMs - dateMs < MsPerHour
    ensures r.HoursAgo? ==>
      && 1 <= r.hours < HoursPerDay
      && r.hours * MsPerHour <= nowMs - dateMs < (r.hours + 1) * MsPerHour
    ensures r.DaysAgo? ==>
      && 1 <= r.days < 7
      && r.days * HoursPerDay * MsPerHour <= nowMs - dateMs < (r.days + 1) * HoursPerDay * MsPerHour
    ensures r.HoursAgo? <==> MsPerHour <= nowMs - dateMs < HoursPerDay * MsPerHour
    ensures r == CalendarDate <==> nowMs - dateMs >= HoursPerWeek * MsPerHour
  {
    var hours := (nowMs - dateMs) / MsPerHour;
    if hours < 1 then JustNow
    else if hours < HoursPerDay then HoursAgo(hours)
    else if hours < HoursPerWeek then DaysAgo(hours / HoursPerDay)
    else CalendarDate
  }

  /** The label text; `localDate` stands for `toLocaleDateString`. */
  function TimeAgoLabel(nowMs: int, dateMs: int, localDate: string): (s: string)
    ensures nowMs - dateMs < MsPerHour ==> s == "Just now"
    ensures nowMs - dateMs >= HoursPerWeek * MsPerHour ==> s == localDate
    ensures MsPerHour <= nowMs - dateMs < HoursPerWeek * MsPerHour ==>
      var hours := (nowMs - dateMs) / MsPerHour;
      s == if hours < HoursPerDay then DecimalString(hours) + "h ago" else DecimalString(hours / HoursPerDay) + "d ago"
  {
    match FormatTimeAgo(nowMs, dateMs)
    case JustNow => "Just now"
    case HoursAgo(h) => DecimalString(h) + "h ago"
    case DaysAgo(d) => DecimalString(d) + "d ago"
    case CalendarDate => localDate
  }

  /** The current user may edit and delete exactly their own comments. */
  predicate ShowsOwnerControls(currentUser: Option<User>, comment: AnalysisComment) {
    currentUser.Some? && currentUser.value.id == comment.userId
  }

  /** An edit to send: the comment and its new content. */
  datatype CommentEdit = CommentEdit(commentId: Id, content: string)

  /** The panel's state: the draft of a new comment, the comment being
      edited (null when none) and the edit draft. */
  class CommentsPanel {
    var newComment: string
    var editingComment: Option<Id>
    var editContent: string

    constructor ()
      ensures newComment == "" && editingComment == None && editContent == ""
    {
      newComment := "";
      editingComment := None;
      editContent := "";
    }

    /** Typing into the new-comment box. */
    method SetNewComment(text: string)
      modifies this
      ensures newComment == text
      ensures editingComment == old(editingComment) && editContent == old(editContent)
    {
      newComment := text;
    }

    /** Typing into the edit box. */
    method SetEditContent(text: string)
      modifies this
      ensures editContent == text
      ensures newComment == old(newComment) && editingComment == old(editingComment)
    {
      editContent := text;
    }

    /** `handleAddComment`: the text to post, untrimmed, or nothing when it
        is blank. */
    method HandleAddComment() returns (send: Option<string>)
      ensures send.None? <==> AllWhitespace(newComment)
      ensures send.Some? ==> send.value == newComment
    {
      TrimEmptyIffBlank(newComment);
      if Trim(newComment) == "" {
        send := None;
      } else {
        send := Some(newComment);
      }
    }

    /** `handleUpdateComment`: the edit to send, or nothing when the edit
        draft is blank. */
    method HandleUpdateComment(commentId: Id) returns (send: Option<CommentEdit>)
      ensures send.None? <==> AllWhitespace(editContent)
      ensures send.Some? ==> send.value == CommentEdit(commentId, editContent)
    {
      TrimEmptyIffBlank(editContent);
      if Trim(editContent) == "" {
        send := None;
      } else {
        send := Some(CommentEdit(commentId, editContent));
      }
    }

    /** `startEditing`: edit that comment, starting from its content. */
    method StartEditing(comment: AnalysisComment)
      modifies this
      ensures editingComment == Some(comment.id) && editContent == comment.content
      ensures newComment == old(newComment)
    {
      editingComment := Some(comment.id);
      editContent := comment.content;
    }

    /** `cancelEditing`: no comment is being edited and the draft is empty. */
    method CancelEditing()
      modifies this
      ensures editingComment == None && editContent == ""
      ensures newComment == old(newComment)
    {
      editingComment := None;
      editContent := "";
    }

    /** A posted comment clears the new-comment box. */
    method OnAddSuccess()
      modifies this
      ensures newComment == ""
      ensures editingComment == old(editingComment) && editContent == old(editContent)
    {
      newComment := "";
    }

    /** A saved edit leaves edit mode. */
    method OnUpdateSuccess()
      modifies this
      ensures editingComment == None && editContent == ""
      ensures newComment == old(newComment)
    {
      editingComment := None;
      editContent := "";
    }
  }
}
