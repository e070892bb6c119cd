/** The standalone review page (src/pages/admin/AdminSubmissions.tsx): it keeps
    its own seeded list in component state instead of using the submissions
    store, and a review rewrites status and comment in place without a review
    time. Its records are a subset of the store's record shape, so the store's
    `Submission` type is reused with the fields this page never sets absent. */
module LocalReview {
  import opened Common
  import opened Submissions
  import opened AdminReview

  /** The three records the page starts with. */
  function Seed(): (r: seq<Submission>)
    ensures |r| == 3
  {
    [ Submission("1", "prompt", "Marketing Campaign Analysis",
                 Some("Analyze the effectiveness of our Q3 marketing campaign and provide insights for improvement."),
                 None, None, None, None, None, "John Doe", "Marketing", "2024-01-15", "pending", None, None),
      Submission("2", "pptx", "Q4 Presentation Template", None, None, None,
                 Some("q4-template.pptx"), None, None, "Sarah Smith", "Sales", "2024-01-14", "pending", None, None),
      Submission("3", "csv", "Bulk Prompts Dataset", None, None, None,
                 Some("bulk-prompts.csv"), None, None, "Mike Johnson", "Data", "2024-01-13", "approved",
                 Some("Great dataset, approved for use."), None) ]
  }

  /** `{ ...sub, status, adminComment: reviewComment || undefined }` */
  function LocallyReviewed(s: Submission, action: string, comment: string): (r: Submission)
    ensures r.status == ActionStatus(action) && r.adminComment == NonEmpty(comment)
    ensures r.(status := s.status, adminComment := s.adminComment) == s
  {
    s.(status := ActionStatus(action), adminComment := NonEmpty(comment))
  }

  /** The list rebuild of `handleReview`: every record with the id is reviewed,
      the others stay as they are. */
  function ReviewLocal(subs: seq<Submission>, id: string, action: string, comment: string): (r: seq<Submission>)
    ensures |r| == |subs|
    ensures forall i :: 0 <= i < |subs| && subs[i].id != id ==> r[i] == subs[i]
    ensures forall i :: 0 <= i < |subs| && subs[i].id == id ==> r[i] == LocallyReviewed(subs[i], action, comment)
  {
    UpdateWhere(subs, (s: Submission) => s.id == id, (s: Submission) => LocallyReviewed(s, action, comment))
  }

  /** The local review is the store's review without the review time: every
      record comes out as the store would write it, with its old `reviewedAt`. */
  lemma SameAsStoreButUnstamped(subs: seq<Submission>, id: string, action: string, comment: string, now: string)
    ensures var local := ReviewLocal(subs, id, action, comment);
      var stored := UpdateStatus(subs, id, ActionStatus(action), NonEmpty(comment), now);
      |local| == |stored| &&
      forall i :: 0 <= i < |local| ==>
        local[i] == stored[i].(reviewedAt := subs[i].reviewedAt) && local[i].reviewedAt == subs[i].reviewedAt
  {
  }

  /** A local review takes exactly the records with that id out of the
      pending view and keeps the rest of it in order. */
  lemma {:induction false} LocalReviewLeavesPending(subs: seq<Submission>, id: string, action: string, comment: string)
    ensures PendingSubmissions(ReviewLocal(subs, id, action, comment)) ==
            Filter(PendingSubmissions(subs), (s: Submission) => s.id != id)
  {
    var pend := (s: Submission) => s.status == "pending";
    var other := (s: Submission) => s.id != id;
    if subs != [] {
      var r := ReviewLocal(subs, id, action, comment);
      assert r == [r[0]] + r[1..];
      assert r[1..] == ReviewLocal(subs[1..], id, action, comment);
      LocalReviewLeavesPending(subs[1..], id, action, comment);
      FilterAppend([r[0]], r[1..], pend);
      assert subs == [subs[0]] + subs[1..];
      FilterAppend([subs[0]], subs[1..], pend);
      FilterAppend(Filter([subs[0]], pend), Filter(subs[1..], pend), other);
    }
  }

  /** The seeded list: two pending items that offer a review and one approved
      CSV dataset with a comment. */
  lemma SeedFacts()
    ensures var s := Seed();
      s[0].id == "1" && s[1].id == "2" && s[2].id == "3" &&
      Reviewable(s[0]) && Reviewable(s[1]) && !Reviewable(s[2]) &&
      s[2].adminComment == Some("Great dataset, approved for use.")
  {
  }

  /** The pending view of the seed is its first two records, in order. */
  lemma SeedPending()
    ensures PendingSubmissions(Seed()) == Seed()[..2]
  {
    var s := Seed();
    var pend := (x: Submission) => x.status == "pending";
    assert s == s[..2] + [s[2]];
    FilterAppend(s[..2], [s[2]], pend);
    FilterAll(s[..2], pend);
  }

  /** Each kind tab counts one record of the seed. */
  lemma SeedTabCounts(k: string)
    requires k == "prompt" || k == "pptx" || k == "csv"
    ensures TabCount(Seed(), k) == 1
  {
    var s := Seed();
    var p := (x: Submission) => x.kind == k;
    assert s == [s[0]] + [s[1]] + [s[2]];
    FilterAppend([s[0]] + [s[1]], [s[2]], p);
    FilterAppend([s[0]], [s[1]], p);
  }

  /** The page's state: its own list and the review dialog. */
  class LocalReviewPage {
    var submissions: seq<Submission>
    var selected: Option<Submission>
    var reviewComment: string
    var dialogOpen: bool

    constructor ()
      ensures submissions == Seed()
      ensures selected.None? && reviewComment == "" && !dialogOpen
    {
      submissions := Seed();
      selected, reviewComment, dialogOpen := None, "", false;
    }

    /** `openReviewDialog`: the comment is prefilled with the stored one. */
    method OpenReviewDialog(s: Submission)
      modifies this
      ensures submissions == old(submissions)
      ensures selected == Some(s) && dialogOpen
      ensures reviewComment == OrElse(s.adminComment, "")
    {
      selected := Some(s);
      reviewComment := OrElse(s.adminComment, "");
      dialogOpen := true;
    }

    /** `handleReview`: rewrite the list, then close and reset the dialog. */
    method HandleReview(s: Submission, action: string)
      modifies this
      ensures submissions == ReviewLocal(old(submissions), s.id, action, old(reviewComment))
      ensures selected.None? && reviewComment == "" && !dialogOpen
    {
      submissions := ReviewLocal(submissions, s.id, action, reviewComment);
      dialogOpen := false;
      selected := None;
      reviewComment := "";
    }

    /** `filterSubmissions` over the page's own list. */
    function FilterSubmissions(kind: Option<string>): (r: seq<Submission>)
      reads this
      ensures kind.None? || kind.value == "" ==> r == submissions
      ensures kind.Some? && kind.value != "" ==> forall s :: s in r <==> s in submissions && s.kind == kind.value
    {
      FilterByType(submissions, kind)
    }
  }
}
