/**
 * The read side of a comment thread (CommentedDetailView.get_context_data)
 * as pure functions over the stored comments, versions and votes: the
 * comments of one page in store order, a revision count per comment and,
 * for a logged-in viewer, the viewer's own vote score per comment, joined
 * with a default of 0.
 */
module CommentThread {
  import opened CommentModel
  import opened CommentGate

  /** A listed comment with its annotations; voteScore is None for an anonymous viewer. */
  datatype Entry = Entry(comment: Comment, revisions: nat, voteScore: Option<int>)

  /** The template context the view builds; isNewUser is None for an anonymous viewer. */
  datatype Context = Context(hasComments: bool, commentList: seq<Entry>, isNewUser: Option<bool>)

  /** Comment.objects.filter(page=page): the comments of one thread, in store order. */
  function CommentsOnPage(comments: seq<Comment>, page: PageRef): (r: seq<Comment>)
    ensures |r| <= |comments|
    ensures forall c :: c in r <==> c in comments && c.page == page
  {
    if comments == [] then []
    else (if comments[0].page == page then [comments[0]] else []) + CommentsOnPage(comments[1..], page)
  }

  /** Count('versions'): the number of audit versions that snapshot comment id. */
  function Revisions(versions: seq<Version>, id: CommentId): (n: nat)
    ensures n <= |versions|
    ensures n == 0 <==> forall k :: 0 <= k < |versions| ==> versions[k].objectId != id
  {
    if versions == [] then 0
    else (if versions[0].objectId == id then 1 else 0) + Revisions(versions[1..], id)
  }

  /**
   * The left outer join of one comment with the viewer's votes, defaulting
   * to 0: the score of a vote by voter on comment c if there is one, else 0.
   */
  function VoteScore(votes: seq<Vote>, c: CommentId, voter: ProfileId): (s: int)
    ensures (forall k :: 0 <= k < |votes| ==> !VoteOf(votes[k], c, voter)) ==> s == 0
    ensures (exists k :: 0 <= k < |votes| && VoteOf(votes[k], c, voter)) ==>
      exists k :: 0 <= k < |votes| && VoteOf(votes[k], c, voter) && s == votes[k].score
  {
    if votes == [] then 0
    else if VoteOf(votes[0], c, voter) then votes[0].score
    else VoteScore(votes[1..], c, voter)
  }

  /** Under the uniqueness constraint, the joined score is the score of the viewer's one vote. */
  lemma VoteScoreOfUniqueVote(votes: seq<Vote>, k: nat, c: CommentId, voter: ProfileId)
    requires UniqueVotes(votes)
    requires k < |votes| && VoteOf(votes[k], c, voter)
    ensures VoteScore(votes, c, voter) == votes[k].score
  {
  }

  /**
   * The annotate() calls: each listed comment with its revision count and,
   * when there is a viewer, the viewer's vote score for it.
   */
  function Annotate(list: seq<Comment>, versions: seq<Version>, votes: seq<Vote>,
                    viewer: Option<ProfileId>): (r: seq<Entry>)
    requires UniqueVotes(votes)
    ensures |r| == |list|
    ensures forall i :: 0 <= i < |r| ==>
      r[i].comment == list[i] && r[i].revisions == Revisions(versions, list[i].id)
    ensures viewer.None? ==> forall i :: 0 <= i < |r| ==> r[i].voteScore == None
    ensures viewer.Some? ==> forall i, k ::
      0 <= i < |r| && 0 <= k < |votes| && VoteOf(votes[k], list[i].id, viewer.value)
      ==> r[i].voteScore == Some(votes[k].score)
    ensures viewer.Some? ==> forall i ::
      0 <= i < |r| && (forall k :: 0 <= k < |votes| ==> !VoteOf(votes[k], list[i].id, viewer.value))
      ==> r[i].voteScore == Some(0)
  {
    if list == [] then []
    else
      var score := if viewer.Some? then Some(VoteScore(votes, list[0].id, viewer.value)) else None;
      [Entry(list[0], Revisions(versions, list[0].id), score)] + Annotate(list[1..], versions, votes, viewer)
  }

  /** get_context_data for the thread page, as seen by user. */
  function ContextData(comments: seq<Comment>, versions: seq<Version>, votes: seq<Vote>,
                       page: PageRef, user: User): (ctx: Context)
    requires UniqueVotes(votes)
    ensures ctx.hasComments <==> exists i :: 0 <= i < |comments| && comments[i].page == page
    ensures ctx.hasComments <==> |ctx.commentList| > 0
    ensures |ctx.commentList| == |CommentsOnPage(comments, page)|
    ensures forall i :: 0 <= i < |ctx.commentList| ==>
      ctx.commentList[i].comment == CommentsOnPage(comments, page)[i]
    ensures ctx.isNewUser.Some? <==> user.isAuthenticated
    ensures user.isAuthenticated ==>
      (ctx.isNewUser == Some(true) <==>
        !user.isStaff &&
        forall k :: 0 <= k < |user.profile.submissions| ==> !Solved(user.profile.submissions[k]))
    ensures forall i :: 0 <= i < |ctx.commentList| ==>
      ctx.commentList[i].revisions == Revisions(versions, ctx.commentList[i].comment.id)
    ensures !user.isAuthenticated ==>
      forall i :: 0 <= i < |ctx.commentList| ==> ctx.commentList[i].voteScore == None
    ensures user.isAuthenticated ==> forall i, k ::
      0 <= i < |ctx.commentList| && 0 <= k < |votes| &&
      VoteOf(votes[k], ctx.commentList[i].comment.id, user.profile.id)
      ==> ctx.commentList[i].voteScore == Some(votes[k].score)
    ensures user.isAuthenticated ==> forall i ::
      0 <= i < |ctx.commentList| &&
      (forall k :: 0 <= k < |votes| ==> !VoteOf(votes[k], ctx.commentList[i].comment.id, user.profile.id))
      ==> ctx.commentList[i].voteScore == Some(0)
  {
    var list := CommentsOnPage(comments, page);
    assert |list| > 0 <==> exists i :: 0 <= i < |comments| && comments[i].page == page by {
      if |list| > 0 {
        assert list[0] in list;
      } else {
        forall i | 0 <= i < |comments| ensures comments[i].page != page {
          assert comments[i] in comments;
        }
      }
    }
    var viewer := if user.isAuthenticated then Some(user.profile.id) else None;
    var isNew := if user.isAuthenticated then Some(IsNewUser(user)) else None;
    Context(|list| > 0, Annotate(list, versions, votes, viewer), isNew)
  }

  /** The thread list distributes over concatenation of stores, so store order is kept. */
  lemma {:induction false} CommentsOnPageAppend(a: seq<Comment>, b: seq<Comment>, page: PageRef)
    ensures CommentsOnPage(a + b, page) == CommentsOnPage(a, page) + CommentsOnPage(b, page)
  {
    if a == [] {
      assert a + b == b;
    } else {
      assert (a + b)[0] == a[0];
      assert (a + b)[1..] == a[1..] + b;
      CommentsOnPageAppend(a[1..], b, page);
    }
  }

  /** Appending one version adds one to its object's revision count and nothing to any other. */
  lemma {:induction false} RevisionsAppend(versions: seq<Version>, v: Version, id: CommentId)
    ensures Revisions(versions + [v], id) == Revisions(versions, id) + (if v.objectId == id then 1 else 0)
  {
    if versions == [] {
      assert versions + [v] == [v];
    } else {
      assert (versions + [v])[1..] == versions[1..] + [v];
      RevisionsAppend(versions[1..], v, id);
    }
  }

  /**
   * On a logged-in, non-muted user, the read path's is_new_user flag is
   * set exactly when the gate would reject that user for standing.
   */
  lemma IsNewUserAgreesWithGate(comments: seq<Comment>, versions: seq<Version>, votes: seq<Vote>,
                                page: PageRef, u: User, path: string)
    requires UniqueVotes(votes)
    requires u.isAuthenticated && !u.profile.mute
    ensures ContextData(comments, versions, votes, page, u).isNewUser ==
            Some(Clean(Some(Request(u, path))) == Some(NotYetProven))
  {
  }

  /** Two comments, the viewer voted +1 on the second only: the scores shown are 0 and 1. */
  lemma TwoCommentScores(page: PageRef, viewer: User)
    requires viewer.isAuthenticated
    ensures
      var c1 := Comment(1, "a", "x", 7, page, None);
      var c2 := Comment(2, "b", "y", 8, page, None);
      var votes := [Vote(2, viewer.profile.id, 1)];
      var ctx := ContextData([c1, c2], [], votes, page, viewer);
      |ctx.commentList| == 2 &&
      ctx.commentList[0].voteScore == Some(0) && ctx.commentList[1].voteScore == Some(1)
  {
  }
}
