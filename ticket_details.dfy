/** A ticket's detail page (src/pages/TicketDetails.js): loading the ticket and its
    comments, and the rules for posting, editing and deleting a comment. */
module TicketDetails {
  import opened Common
  import opened Records
  import opened Text

  const LoginRequired := "You must be logged in to post a comment."

  /** An edit prompt's answer is ignored: cancelled (`null`), empty, or unchanged
      once trimmed. */
  predicate EditSkipped(comment: Comment, answer: Option<string>) {
    answer.None? || answer.value == "" || Trim(answer.value) == comment.content
  }

  /** A blank but non-empty answer is not skipped for a non-empty comment, and it
      saves the empty string. */
  lemma BlankEditSavesEmpty(comment: Comment, answer: string)
    requires answer != "" && comment.content != ""
    requires forall i :: 0 <= i < |answer| ==> IsSpace(answer[i])
    ensures !EditSkipped(comment, Some(answer)) && Trim(answer) == ""
  {
    TrimEmptyIff(answer);
  }

  /** The author shown on a comment: its profile's email, or "Unknown User". */
  function AuthorLabel(comment: Comment): (shown: string)
    ensures comment.authorEmail.Some? && comment.authorEmail.value != "" ==>
              shown == comment.authorEmail.value
    ensures comment.authorEmail.None? || comment.authorEmail.value == "" ==>
              shown == "Unknown User"
  {
    match comment.authorEmail
    case Some(email) => if email != "" then email else "Unknown User"
    case None => "Unknown User"
  }

  /** The page's state, and what its handlers did outside it. */
  class TicketDetailsPage {
    const ticketId: Id
    var ticket: Option<Ticket>
    var comments: seq<Comment>
    var newComment: string
    var loading: bool
    var user: Option<User>
    var effects: seq<Effect>

    /** Mounting on a ticket: nothing loaded yet. */
    constructor (ticketId: Id)
      ensures this.ticketId == ticketId && ticket == None && comments == []
      ensures newComment == "" && loading && user == None && effects == []
    {
      this.ticketId := ticketId;
      ticket, comments, newComment := None, [], "";
      loading, user, effects := true, None, [];
    }

    /** `user?.id === c.user_id`: a comment shows its edit and delete controls only
        to its author, and to nobody when no one is signed in. */
    function ShowsControls(comment: Comment): (shown: bool)
      reads this
      ensures user.None? ==> !shown
      ensures user.Some? ==> (shown <==> user.value.id == comment.userId)
    {
      match user
      case None => false
      case Some(u) => u.id == comment.userId
    }

    /** The submit button is disabled while the comment is blank. */
    function SubmitDisabled(): (disabled: bool)
      reads this
      ensures disabled <==> forall i :: 0 <= i < |newComment| ==> IsSpace(newComment[i])
    {
      TrimEmptyIff(newComment);
      Trim(newComment) == ""
    }

    /** `fetchDetails`, with what `getUser`, the ticket query and the comments query
        returned as inputs; comments that did not load count as none. */
    method FetchDetails(reportedUser: Option<User>, ticketRow: Option<Ticket>,
                        commentsRes: Remote<seq<Comment>>)
      modifies this
      ensures user == reportedUser && ticket == ticketRow && !loading
      ensures comments == OrEmpty(commentsRes) && newComment == old(newComment)
      ensures effects == old(effects) + [Send(SelectTicket(ticketId)), Send(SelectComments(ticketId))]
    {
      user := reportedUser;
      effects := effects + [Send(SelectTicket(ticketId)), Send(SelectComments(ticketId))];
      ticket := ticketRow;
      comments := OrEmpty(commentsRes);
      loading := false;
    }

    /** `fetchComments`: the list is replaced, by nothing when the query failed. */
    method FetchComments(res: Remote<seq<Comment>>)
      modifies this
      ensures comments == OrEmpty(res)
      ensures ticket == old(ticket) && newComment == old(newComment)
      ensures loading == old(loading) && user == old(user)
      ensures effects == old(effects) + [Send(SelectComments(ticketId))]
    {
      effects := effects + [Send(SelectComments(ticketId))];
      comments := OrEmpty(res);
    }

    /** `handleAddComment`, with the insert's and the refetch's outcomes as inputs. */
    method HandleAddComment(insert: Remote<()>, refetch: Remote<seq<Comment>>)
      modifies this
      ensures ticket == old(ticket) && loading == old(loading) && user == old(user)
      ensures Trim(old(newComment)) == "" ==>
                comments == old(comments) && newComment == old(newComment) &&
                effects == old(effects)
      ensures Trim(old(newComment)) != "" && user.None? ==>
                comments == old(comments) && newComment == old(newComment) &&
                effects == old(effects) + [Notify(LoginRequired)]
      ensures Trim(old(newComment)) != "" && user.Some? ==>
                var row := NewComment(ticketId, user.value.id, Trim(old(newComment)));
                if insert.Err? then
                  comments == old(comments) && newComment == old(newComment) &&
                  effects == old(effects) + [Send(InsertComment(row)),
                                             Notify("Failed to post comment: " + insert.message)]
                else
                  comments == OrEmpty(refetch) && newComment == "" &&
                  effects == old(effects) + [Send(InsertComment(row)), Send(SelectComments(ticketId))]
    {
      var content := Trim(newComment);
      if content == "" {
        return;
      }
      if user.None? {
        effects := effects + [Notify(LoginRequired)];
        return;
      }
      PostComment(NewComment(ticketId, user.value.id, content), insert, refetch);
    }

    /** The insert step of `handleAddComment`: on success the input is cleared and
        the comments refetched; on failure the input is kept and an alert shown. */
    method PostComment(row: NewComment, insert: Remote<()>, refetch: Remote<seq<Comment>>)
      modifies this
      ensures ticket == old(ticket) && loading == old(loading) && user == old(user)
      ensures insert.Err? ==>
                comments == old(comments) && newComment == old(newComment) &&
                effects == old(effects) + [Send(InsertComment(row)),
                                           Notify("Failed to post comment: " + insert.message)]
      ensures insert.Ok? ==>
                comments == OrEmpty(refetch) && newComment == "" &&
                effects == old(effects) + [Send(InsertComment(row)), Send(SelectComments(ticketId))]
    {
      effects := effects + [Send(InsertComment(row))];
      if insert.Err? {
        effects := effects + [Notify("Failed to post comment: " + insert.message)];
        return;
      }
      newComment := "";
      FetchComments(refetch);
    }

    /** `handleDeleteComment`: the handler itself does not check ownership; only
        the controls are hidden from other users. */
    method HandleDeleteComment(commentId: Id, outcome: Remote<()>, refetch: Remote<seq<Comment>>)
      modifies this
      ensures ticket == old(ticket) && newComment == old(newComment)
      ensures loading == old(loading) && user == old(user)
      ensures outcome.Err? ==>
                comments == old(comments) &&
                effects == old(effects) + [Send(DeleteComment(commentId)),
                                           Notify("Failed to delete comment: " + outcome.message)]
      ensures outcome.Ok? ==>
                comments == OrEmpty(refetch) &&
                effects == old(effects) + [Send(DeleteComment(commentId)), Send(SelectComments(ticketId))]
    {
      effects := effects + [Send(DeleteComment(commentId))];
      if outcome.Err? {
        effects := effects + [Notify("Failed to delete comment: " + outcome.message)];
        return;
      }
      FetchComments(refetch);
    }

    /** `handleEditComment`, with the prompt's answer and the outcomes as inputs:
        a skipped answer does nothing; otherwise the trimmed answer is saved. */
    method HandleEditComment(comment: Comment, answer: Option<string>,
                             outcome: Remote<()>, refetch: Remote<seq<Comment>>)
      modifies this
      ensures ticket == old(ticket) && newComment == old(newComment)
      ensures loading == old(loading) && user == old(user)
      ensures EditSkipped(comment, answer) ==> comments == old(comments) && effects == old(effects)
      ensures !EditSkipped(comment, answer) && outcome.Err? ==>
                comments == old(comments) &&
                effects == old(effects) + [Send(UpdateComment(comment.id, Trim(answer.value))),
                                           Notify("Failed to update comment: " + outcome.message)]
      ensures !EditSkipped(comment, answer) && outcome.Ok? ==>
                comments == OrEmpty(refetch) &&
                effects == old(effects) + [Send(UpdateComment(comment.id, Trim(answer.value))),
                                           Send(SelectComments(ticketId))]
    {
      if EditSkipped(comment, answer) {
        return;
      }
      var content := Trim(answer.value);
      effects := effects + [Send(UpdateComment(comment.id, content))];
      if outcome.Err? {
        effects := effects + [Notify("Failed to update comment: " + outcome.message)];
        return;
      }
      FetchComments(refetch);
    }
  }
}
