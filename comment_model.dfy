/**
 * The records the comment views read and write: users and their profiles,
 * submissions, comments, comment votes and the audit versions recorded for
 * each comment. The persistent store itself is modelled in CommentView.
 */
module CommentModel {

  datatype Option<+T> = None | Some(value: T)

  type UserId = nat
  type ProfileId = nat
  type CommentId = nat

  /** The opaque key naming the thread a comment belongs to (e.g. "p:aplusb"). */
  type PageRef = string

  /** A graded submission: the points it earned and the maximum its problem awards. */
  datatype Submission = Submission(points: int, problemPoints: int)

  /** The profile fields the views consult. */
  datatype Profile = Profile(id: ProfileId, mute: bool, submissions: seq<Submission>)

  /** The requesting user; an anonymous user has isAuthenticated == false. */
  datatype User = User(id: UserId, isAuthenticated: bool, isStaff: bool, profile: Profile)

  /** The parts of an HTTP request the views use. */
  datatype Request = Request(user: User, path: string)

  /** The user-editable fields of a comment form. */
  datatype FormData = FormData(title: string, body: string, parent: Option<CommentId>)

  datatype Comment = Comment(
    id: CommentId,
    title: string,
    body: string,
    author: ProfileId,
    page: PageRef,
    parent: Option<CommentId>)

  /** One audit entry: the object it snapshots, the acting user and the message. */
  datatype Version = Version(objectId: CommentId, userId: UserId, message: string)

  /** A vote cast on a comment by a profile. */
  datatype Vote = Vote(comment: CommentId, voter: ProfileId, score: int)

  /** The audit message attached to every comment posted through the view. */
  const PostedMessage: string := "Posted comment"

  /** A submission that earned all of its problem's points. */
  predicate Solved(s: Submission) {
    s.points == s.problemPoints
  }

  /** The vote v was cast on comment c by profile p. */
  predicate VoteOf(v: Vote, c: CommentId, p: ProfileId) {
    v.comment == c && v.voter == p
  }

  /** The database's uniqueness constraint: at most one vote per (comment, voter). */
  predicate UniqueVotes(votes: seq<Vote>) {
    forall i, j ::
      0 <= i < |votes| && 0 <= j < |votes| && VoteOf(votes[i], votes[j].comment, votes[j].voter)
      ==> i == j
  }

  /** Some stored comment carries the identifier id. */
  predicate IsStoredId(comments: seq<Comment>, id: CommentId) {
    exists i :: 0 <= i < |comments| && comments[i].id == id
  }
}
