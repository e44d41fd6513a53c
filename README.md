# Comment threads: eligibility gate, post transition and annotated listing

This project models the comment views of an online judge: the form gate
that decides whether a logged-in user may post (`CommentForm.clean`), the
POST handler that saves a comment together with one audit version, and the
read path that lists a page's comments with a revision count and the
viewer's own vote score (`CommentedDetailView.get_context_data`).

- `comment_model.dfy` (`CommentModel`): users, profiles, submissions,
  comments, versions and votes as datatypes; the vote uniqueness constraint.
- `comment_gate.dfy` (`CommentGate`): the ordered gate. No request or an
  anonymous user adds no error; a muted profile is rejected; a non-staff
  user without a full-score submission is rejected; everyone else passes.
  The standing rule is one predicate, `IsNewUser`, used by the gate and by
  the read path.
- `comment_thread.dfy` (`CommentThread`): the listing as pure functions: the
  page filter in store order, `has_comments`, the per-comment version count,
  and the left outer join of the viewer's votes with default 0.
- `comment_view.dfy` (`CommentView`): a `Store` class holding the comment,
  version and vote sequences and the next primary key. `Post` appends the
  comment and its one "Posted comment" version in a single atomic step and
  redirects, or changes nothing and re-renders. `Get` renders the listing
  with an empty form.

Inputs the model takes as parameters: the thread page (`get_comment_page`),
the verdict of the form framework's field-level validation (`fieldsValid`:
title and body present, parent an existing comment), and the request path
used for the redirect.

## Model

| member | source | states |
|---|---|---|
| `CommentGate.AnySolved` | judge/comments.py:49 | true exactly when some submission earned its problem's full points |
| `CommentGate.IsNewUser` | judge/comments.py:48-49 | the standing rule: true exactly when the user is non-staff and no submission earned its problem's full points; the read path's `is_new_user` (lines 99-100) uses the same function |
| `CommentGate.Clean` | judge/comments.py:43-52 | no error without a logged-in requester; `Muted` for a muted profile; otherwise `NotYetProven` iff non-staff with no full-score submission; no error iff unauthenticated, or unmuted and staff or holding a full-score submission |
| `CommentGate.MutedAlwaysRejected` | judge/comments.py:44-47 | a muted logged-in user is rejected as muted whatever the staff flag and submissions |
| `CommentGate.StaffNeverRejected` | judge/comments.py:48 | an unmuted logged-in staff user is never rejected |
| `CommentGate.AnonymousSkipsGate` | judge/comments.py:44 | an absent request or anonymous user gets no gate error |
| `CommentGate.OneSolvedSubmissionSuffices` | judge/comments.py:48-51 | an unmuted non-staff user with no full-score submission is rejected as not yet proven, and adding one full-score submission makes the same user pass |
| `CommentGate.GateRejectsExactlyNewUsers` | judge/comments.py:48-51 | for an unmuted logged-in user the standing rejection happens iff `IsNewUser` holds |
| `CommentThread.CommentsOnPage` | judge/comments.py:91 | the result holds exactly the stored comments whose page is the thread page, and is no longer than the store |
| `CommentThread.CommentsOnPageAppend` | judge/comments.py:91 | the page filter distributes over concatenation of the store, so store order is kept |
| `CommentThread.Revisions` | judge/comments.py:93 | the version count of a comment is at most the number of versions and is zero iff no version snapshots that comment |
| `CommentThread.RevisionsAppend` | judge/comments.py:93 | appending a version raises its comment's count by one and leaves every other count alone |
| `CommentThread.VoteScore` | judge/comments.py:96-98 | 0 when the viewer has no vote on the comment; otherwise the score of one of the viewer's votes on it |
| `CommentThread.VoteScoreOfUniqueVote` | judge/comments.py:96-98 | under the one-vote-per-(comment, voter) constraint, the joined score is that vote's score |
| `CommentThread.Annotate` | judge/comments.py:93-98 | one entry per listed comment, in order, carrying its version count; no score for an anonymous viewer; for a viewer, the score of their vote on it, or 0 when they have none |
| `CommentThread.ContextData` | judge/comments.py:89-103 | `has_comments` iff some stored comment is on the page, iff the list is non-empty; the list is the page's comments in store order; `is_new_user` is present iff the viewer is logged in and is true iff the viewer is non-staff with no full-score submission; each entry carries its comment's version count; an anonymous viewer gets no scores, and a logged-in viewer gets, per entry, the score of their own profile's vote on that comment, or 0 when they have none |
| `CommentThread.IsNewUserAgreesWithGate` | judge/comments.py:99-100 | for an unmuted logged-in user, `is_new_user` equals "the gate rejects for standing" |
| `CommentThread.TwoCommentScores` | judge/comments.py:95-98 | with two comments and a +1 vote by the viewer on the second only, the listing shows scores 0 and 1 |
| `CommentView.FormIsValid` | judge/comments.py:69 | `form.is_valid()` holds exactly when the field-level checks pass and the gate adds no error: anonymous, or unmuted and staff or holding a full-score submission |
| `CommentView.Store.SaveWithRevision` | judge/comments.py:73-76 | the locked block appends the comment under a fresh key and exactly one version of it by the acting user with the given message; that comment's version count becomes 1, other counts and votes are unchanged, the store invariant is kept |
| `CommentView.Store.Post` | judge/comments.py:63-80 | a valid form appends one comment with the requester's profile as author and the thread page as page, plus one "Posted comment" version by the requester, keeps earlier comments and versions, advances the next key by one, and redirects to the request path; an invalid form (field errors or a gate rejection) leaves the store unchanged and re-renders the listing with the form and the gate error |
| `CommentView.Store.Get` | judge/comments.py:82-87 | renders the page's listing for the requester with an empty form and no error |

## Left out

- Table locking (`LockModel`) and concurrency: the locked block is one atomic method, `SaveWithRevision`, so interleavings are not modelled.
- The `reversion` revision scope internals: it is abstracted as appending one `Version` record (object, user, message); the separate Revision row, timestamps and serialized snapshots are not modelled.
- The raw-SQL join helpers and `Coalesce`: only their meaning, a left outer join with default 0, is modelled; vote uniqueness per (comment, voter) is a store invariant.
- `@login_required`: `Post` requires an authenticated requester.
- Field-level form validation (required title and body, existing parent, widget attributes, the preview widget, translated messages): its verdict is the `fieldsValid` input; messages are replaced by the `GateError` variants.
- `FormData` stands for the form's cleaned data, which `form.save(commit=False)` copies into the comment; the framework's cleaning of the raw POST values (such as stripping surrounding whitespace from title and body) is not modelled, and the re-rendered form carries the same values.
- Translation of the audit message: the source records the "Posted comment" text translated into the request's active language; the model records the fixed English text `PostedMessage`.
- Listing order: the page filter has no explicit ordering, so the listing returns rows in whatever order the store yields; the model takes that order to be insertion order, which is why a newly posted comment is listed last.
- `get_object`, `get_comment_page`, template rendering and the HTTP redirect object: the page and the request path are inputs and responses are a datatype.
- ORM details (`select_related`, `defer`, query laziness) have no observable effect in the model.
- Submission and problem points are floats in the application; judge/models.py is not part of this model, and points are taken as integers compared for equality.
- The parent of a posted comment is not checked to be on the same page, because the view does not check it.
