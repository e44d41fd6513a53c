/**
 * CommentedDetailView: the store of comments, audit versions and votes that
 * the view reads and writes, and its GET and POST handlers. The table lock
 * and the revision scope of a post are one atomic step, SaveWithRevision.
 */
module CommentView {
  import opened CommentModel
  import opened CommentGate
  import opened CommentThread

  /** What a handler answers: a redirect, or a rendered page with a form and its gate error. */
  datatype Response =
    | Redirect(path: string)
    | Render(context: Context, form: FormData, formError: Option<GateError>)

  /** The form a GET renders: empty, replying to no parent. */
  const EmptyForm: FormData := FormData("", "", None)

  /**
   * form.is_valid(): the field-level checks that the form framework runs
   * (fieldsValid) and the gate of CommentForm.clean both pass.
   */
  function FormIsValid(request: Request, fieldsValid: bool): (b: bool)
    ensures b <==>
      && fieldsValid
      && (!request.user.isAuthenticated ||
          (!request.user.profile.mute &&
           (request.user.isStaff ||
            exists i :: 0 <= i < |request.user.profile.submissions| &&
              Solved(request.user.profile.submissions[i]))))
  {
    fieldsValid && Clean(Some(request)) == None
  }

  class Store {
    var comments: seq<Comment>
    var versions: seq<Version>
    var votes: seq<Vote>
    /** The primary key the next saved comment receives. */
    var nextId: CommentId

    /**
     * Comment keys are distinct and below nextId, every version snapshots a
     * stored comment, and each (comment, voter) pair has at most one vote.
     */
    ghost predicate Valid()
      reads this
    {
      (forall i :: 0 <= i < |comments| ==> comments[i].id < nextId) &&
      (forall i, j :: 0 <= i < j < |comments| ==> comments[i].id != comments[j].id) &&
      (forall k :: 0 <= k < |versions| ==> IsStoredId(comments, versions[k].objectId)) &&
      UniqueVotes(votes)
    }

    /** A store with no comments yet, over the given votes. */
    constructor (initialVotes: seq<Vote>)
      requires UniqueVotes(initialVotes)
      ensures Valid()
      ensures comments == [] && versions == [] && votes == initialVotes
    {
      comments, versions, votes, nextId := [], [], initialVotes, 0;
    }

    /**
     * The block run under the table lock and the revision scope: save the
     * comment under a fresh key and record exactly one version of it,
     * attributed to user with the given message, both or neither.
     */
    method SaveWithRevision(draft: Comment, user: UserId, message: string) returns (saved: Comment)
      requires Valid()
      modifies this
      ensures Valid()
      ensures saved == draft.(id := old(nextId))
      ensures !IsStoredId(old(comments), saved.id)
      ensures comments == old(comments) + [saved]
      ensures versions == old(versions) + [Version(saved.id, user, message)]
      ensures votes == old(votes) && nextId == old(nextId) + 1
      ensures Revisions(versions, saved.id) == 1
      ensures forall id :: id != saved.id ==> Revisions(versions, id) == Revisions(old(versions), id)
    {
      saved := draft.(id := nextId);
      forall k | 0 <= k < |versions| ensures versions[k].objectId != saved.id {
        assert IsStoredId(comments, versions[k].objectId);
      }
      RevisionsAppend(versions, Version(saved.id, user, message), saved.id);
      forall id | id != saved.id
        ensures Revisions(versions + [Version(saved.id, user, message)], id) == Revisions(versions, id)
      {
        RevisionsAppend(versions, Version(saved.id, user, message), id);
      }
      ghost var before := comments;
      comments := comments + [saved];
      versions := versions + [Version(saved.id, user, message)];
      nextId := nextId + 1;
      forall k | 0 <= k < |versions| ensures IsStoredId(comments, versions[k].objectId) {
        if k < |versions| - 1 {
          var i :| 0 <= i < |before| && before[i].id == versions[k].objectId;
          assert comments[i] == before[i];
        } else {
          assert comments[|comments| - 1].id == versions[k].objectId;
        }
      }
    }

    /**
     * post: on a valid form, save the comment by the requester on the thread
     * page together with one "Posted comment" version, and redirect to the
     * request's own path; otherwise change nothing and render the page again
     * with the failed form and the gate's error.
     */
    method Post(request: Request, page: PageRef, form: FormData, fieldsValid: bool)
      returns (response: Response)
      requires Valid()
      requires request.user.isAuthenticated
      modifies this
      ensures Valid() && votes == old(votes)
      ensures FormIsValid(request, fieldsValid) ==>
        var posted := Comment(old(nextId), form.title, form.body, request.user.profile.id, page, form.parent);
        && response == Redirect(request.path)
        && nextId == old(nextId) + 1
        && !IsStoredId(old(comments), posted.id)
        && comments == old(comments) + [posted]
        && versions == old(versions) + [Version(posted.id, request.user.id, PostedMessage)]
        && CommentsOnPage(comments, page) == CommentsOnPage(old(comments), page) + [posted]
        && Revisions(versions, posted.id) == 1
        && (forall id :: id != posted.id ==> Revisions(versions, id) == Revisions(old(versions), id))
      ensures !FormIsValid(request, fieldsValid) ==>
        && comments == old(comments) && versions == old(versions) && nextId == old(nextId)
        && response == Render(ContextData(comments, versions, votes, page, request.user),
                              form, Clean(Some(request)))
    {
      if FormIsValid(request, fieldsValid) {
        var draft := Comment(0, form.title, form.body, request.user.profile.id, page, form.parent);
        ghost var before := comments;
        var saved := SaveWithRevision(draft, request.user.id, PostedMessage);
        CommentsOnPageAppend(before, [saved], page);
        assert CommentsOnPage([saved], page) == [saved] by {
          assert [saved][1..] == [];
        }
        response := Redirect(request.path);
      } else {
        response := Render(ContextData(comments, versions, votes, page, request.user),
                           form, Clean(Some(request)));
      }
    }

    /** get: render the thread page with an empty form. */
    method Get(request: Request, page: PageRef) returns (response: Response)
      requires Valid()
      ensures response.Render? && response.form == EmptyForm && response.formError == None
      ensures response.context == ContextData(comments, versions, votes, page, request.user)
    {
      response := Render(ContextData(comments, versions, votes, page, request.user), EmptyForm, None);
    }
  }
}
