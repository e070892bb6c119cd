/** The admin review page over the submissions store
    (src/pages/admin/AdminSubmissions.jsx): the action-to-status mapping, the
    review dialog's comment, the type filter behind the tabs and the rule that
    only pending items offer a review. */
module AdminReview {
  import opened Common
  import opened Submissions

  /** `action === 'approve' ? 'approved' : 'denied'` */
  function ActionStatus(action: string): (r: string)
    ensures r == "approved" <==> action == "approve"
    ensures r == "approved" || r == "denied"
  {
    if action == "approve" then "approved" else "denied"
  }

  /** `filterSubmissions(type)`: a missing or empty type is falsy and keeps the
      whole list; otherwise the records whose `type` equals it, in order. */
  function FilterByType(subs: seq<Submission>, kind: Option<string>): (r: seq<Submission>)
    ensures kind.None? || kind.value == "" ==> r == subs
    ensures kind.Some? && kind.value != "" ==> forall s :: s in r <==> s in subs && s.kind == kind.value
    ensures |r| <= |subs|
  {
    if kind.None? || kind.value == "" then subs
    else Filter(subs, (s: Submission) => s.kind == kind.value)
  }

  /** The Review button is shown only for pending records. */
  predicate Reviewable(s: Submission)
  {
    s.status == "pending"
  }

  /** The tab for one kind. */
  function TabCount(subs: seq<Submission>, kind: string): nat
  {
    |FilterByType(subs, Some(kind))|
  }

  /** The three kind tabs never count more than the "All" tab, and they add up
      to it when every record is a prompt, a PowerPoint or a CSV file. */
  lemma {:induction false} TabCountsAddUp(subs: seq<Submission>)
    ensures TabCount(subs, "prompt") + TabCount(subs, "pptx") + TabCount(subs, "csv") <= |subs|
    ensures (forall s :: s in subs ==> s.kind == "prompt" || s.kind == "pptx" || s.kind == "csv") ==>
      TabCount(subs, "prompt") + TabCount(subs, "pptx") + TabCount(subs, "csv") == |subs|
  {
    if subs != [] {
      assert forall s :: s in subs[1..] ==> s in subs;
      TabCountsAddUp(subs[1..]);
    }
  }

  /** A review never leaves the reviewed record pending, so its Review button
      disappears; every other record keeps its place and its button. */
  lemma ReviewClosesItem(subs: seq<Submission>, id: string, action: string,
                         comment: Option<string>, now: string)
    ensures var r := UpdateStatus(subs, id, ActionStatus(action), comment, now);
      forall i :: 0 <= i < |r| ==>
        (r[i].id == id ==> !Reviewable(r[i])) &&
        (r[i].id != id ==> r[i] == subs[i])
  {
  }

  /** Reopening a record and confirming without editing the comment writes
      back the comment it had, except an empty one, which becomes absent. */
  lemma PrefillRoundTrip(c: Option<string>, typed: string)
    ensures NonEmpty(OrElse(c, "")) == (if c == Some("") then None else c)
    ensures OrElse(NonEmpty(typed), "") == typed
  {
  }

  /** The page's dialog state. */
  class ReviewPage {
    var selected: Option<Submission>
    var reviewComment: string
    var dialogOpen: bool

    constructor ()
      ensures selected.None? && reviewComment == "" && !dialogOpen
    {
      selected, reviewComment, dialogOpen := None, "", false;
    }

    /** `openReviewDialog`: the comment is prefilled with the stored one. */
    method OpenReviewDialog(s: Submission)
      modifies this
      ensures selected == Some(s) && dialogOpen
      ensures reviewComment == OrElse(s.adminComment, "")
    {
      selected := Some(s);
      reviewComment := OrElse(s.adminComment, "");
      dialogOpen := true;
    }

    /** `handleReview`: the typed comment, or undefined when blank, goes to the
        store with the mapped status; the dialog then closes and resets. */
    method HandleReview(store: SubmissionsStore, s: Submission, action: string, now: string)
      modifies this, store
      ensures store.submissions ==
        UpdateStatus(old(store.submissions), s.id, ActionStatus(action), NonEmpty(old(reviewComment)), now)
      ensures store.Mirrored()
      ensures selected.None? && reviewComment == "" && !dialogOpen
    {
      store.UpdateSubmissionStatus(s.id, ActionStatus(action), NonEmpty(reviewComment), now);
      dialogOpen := false;
      selected := None;
      reviewComment := "";
    }
  }

  /** Opening the dialog on a record and confirming at once: the record's own
      comment survives the review unless it was the empty string. */
  method ReviewAsPrefilled(page: ReviewPage, store: SubmissionsStore, s: Submission, action: string, now: string)
    modifies page, store
    ensures store.submissions ==
      UpdateStatus(old(store.submissions), s.id, ActionStatus(action),
                   if s.adminComment == Some("") then None else s.adminComment, now)
    ensures page.selected.None? && page.reviewComment == ""
  {
    page.OpenReviewDialog(s);
    PrefillRoundTrip(s.adminComment, "");
    page.HandleReview(store, s, action, now);
  }
}
