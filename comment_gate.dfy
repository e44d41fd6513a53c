/**
 * The eligibility gate of the comment form (CommentForm.clean): muted
 * profiles may not post, and neither may non-staff users who have never
 * solved a problem with full points. The standing rule is defined once,
 * as IsNewUser, and shared with the read path.
 */
module CommentGate {
  import opened CommentModel

  /** Why the form adds a form-level validation error. */
  datatype GateError = Muted | NotYetProven

  /** Whether some submission earned full points (the submission_set filter's exists()). */
  function AnySolved(subs: seq<Submission>): (b: bool)
    ensures b <==> exists i :: 0 <= i < |subs| && Solved(subs[i])
  {
    if subs == [] then false
    else Solved(subs[0]) || AnySolved(subs[1..])
  }

  /** The standing rule: a non-staff user without any full-score submission. */
  function IsNewUser(u: User): (b: bool)
    ensures b <==>
      && !u.isStaff
      && forall i :: 0 <= i < |u.profile.submissions| ==> !Solved(u.profile.submissions[i])
  {
    !u.isStaff && !AnySolved(u.profile.submissions)
  }

  /** The request is present and its user is logged in. */
  predicate Authenticated(request: Option<Request>) {
    request.Some? && request.value.user.isAuthenticated
  }

  /**
   * CommentForm.clean: the error it raises, or None when it adds none.
   * Rules are tried in order: no request or an anonymous user skips the
   * gate, then a muted profile is rejected, then the standing rule.
   */
  function Clean(request: Option<Request>): (r: Option<GateError>)
    ensures !Authenticated(request) ==> r == None
    ensures Authenticated(request) && request.value.user.profile.mute ==> r == Some(Muted)
    ensures Authenticated(request) && !request.value.user.profile.mute ==>
      (r == Some(NotYetProven) <==>
        !request.value.user.isStaff &&
        forall i :: 0 <= i < |request.value.user.profile.submissions| ==>
          !Solved(request.value.user.profile.submissions[i]))
    ensures r == None <==>
      !Authenticated(request) ||
      (!request.value.user.profile.mute &&
        (request.value.user.isStaff ||
         exists i :: 0 <= i < |request.value.user.profile.submissions| &&
           Solved(request.value.user.profile.submissions[i])))
  {
    if Authenticated(request) then
      var user := request.value.user;
      if user.profile.mute then Some(Muted)
      else if IsNewUser(user) then Some(NotYetProven)
      else None
    else None
  }

  /** A muted, logged-in user is rejected as muted whatever their staff flag and submissions. */
  lemma MutedAlwaysRejected(u: User, path: string, staff: bool, subs: seq<Submission>)
    requires u.isAuthenticated && u.profile.mute
    ensures Clean(Some(Request(u.(isStaff := staff, profile := u.profile.(submissions := subs)), path)))
            == Some(Muted)
  {
  }

  /** A logged-in, non-muted staff user is never rejected. */
  lemma StaffNeverRejected(u: User, path: string)
    requires u.isAuthenticated && !u.profile.mute && u.isStaff
    ensures Clean(Some(Request(u, path))) == None
  {
  }

  /** Without a request or with an anonymous user the gate adds no error. */
  lemma AnonymousSkipsGate(request: Option<Request>)
    requires request.None? || !request.value.user.isAuthenticated
    ensures Clean(request) == None
  {
  }

  /**
   * A non-staff, non-muted user with no full-score submission is rejected;
   * one full-score submission added to the same profile lets them through.
   */
  lemma {:induction false} OneSolvedSubmissionSuffices(u: User, path: string, s: Submission)
    requires u.isAuthenticated && !u.profile.mute && !u.isStaff
    requires !AnySolved(u.profile.submissions)
    requires Solved(s)
    ensures Clean(Some(Request(u, path))) == Some(NotYetProven)
    ensures Clean(Some(Request(u.(profile := u.profile.(submissions := u.profile.submissions + [s])), path)))
            == None
  {
    var subs := u.profile.submissions + [s];
    assert subs[|subs| - 1] == s;
    assert AnySolved(subs);
  }

  /** For a logged-in, non-muted user, the gate rejects for standing exactly when IsNewUser holds. */
  lemma GateRejectsExactlyNewUsers(u: User, path: string)
    requires u.isAuthenticated && !u.profile.mute
    ensures Clean(Some(Request(u, path))) == Some(NotYetProven) <==> IsNewUser(u)
  {
  }
}
