/** The submissions store (src/contexts/SubmissionsContext.jsx): review items
    created by users, reviewed by admins, listed by submitter and by status,
    and mirrored under the storage key 'submissions'. */
module Submissions {
  import opened Common
  import DelegatedAuth

  /** One review item. `kind` is the JavaScript `type` property ('prompt',
      'pptx', 'csv'); the prompt fields and the file fields are each absent on
      the other kind of record. */
  datatype Submission = Submission(
    id: string, kind: string, title: string,
    content: Option<string>, expectedResponse: Option<string>, teamDocuments: Option<string>,
    fileName: Option<string>, fileSize: Option<int>, description: Option<string>,
    submittedBy: string, team: string, submittedAt: string,
    status: string, adminComment: Option<string>, reviewedAt: Option<string>)

  /** What `submitPrompt` receives (the prompt form). */
  datatype PromptData = PromptData(
    name: string, question: string, expectedResponse: string, teamDocuments: Option<string>)

  /** What `submitFile` receives. */
  datatype FileData = FileData(
    kind: string, title: string, fileName: string, fileSize: int, description: Option<string>)

  /** The part of the signed-in identity the store reads: `user?.name` and
      `user?.team`, each possibly undefined. */
  datatype Submitter = Submitter(name: Option<string>, team: Option<string>)

  /** The identity the store is wired to carries no `team` property. */
  function FromDelegated(u: DelegatedAuth.AzureUser): (s: Submitter)
    ensures s.name == Some(u.name) && s.team.None?
  {
    Submitter(Some(u.name), None)
  }

  /** `user?.name || 'Unknown User'` */
  function SnapshotName(who: Option<Submitter>): (r: string)
    ensures who.Some? && who.value.name.Some? && who.value.name.value != "" ==> r == who.value.name.value
    ensures who.None? || who.value.name.None? || who.value.name.value == "" ==> r == "Unknown User"
  {
    OrElse(if who.Some? then who.value.name else None, "Unknown User")
  }

  /** `user?.team || 'No Team'` */
  function SnapshotTeam(who: Option<Submitter>): (r: string)
    ensures who.Some? && who.value.team.Some? && who.value.team.value != "" ==> r == who.value.team.value
    ensures who.None? || who.value.team.None? || who.value.team.value == "" ==> r == "No Team"
  {
    OrElse(if who.Some? then who.value.team else None, "No Team")
  }

  /** A submitter known only through the delegated identity is always filed
      under 'No Team'. */
  lemma DelegatedTeamIsNoTeam(u: DelegatedAuth.AzureUser)
    ensures SnapshotTeam(Some(FromDelegated(u))) == "No Team"
    ensures u.name != "" ==> SnapshotName(Some(FromDelegated(u))) == u.name
  {
  }

  /** The record `submitPrompt` builds. */
  function NewPrompt(d: PromptData, who: Option<Submitter>, id: string, now: string): (s: Submission)
    ensures s.id == id && s.kind == "prompt" && s.status == "pending"
    ensures s.title == d.name && s.content == Some(d.question)
    ensures s.expectedResponse == Some(d.expectedResponse)
    ensures s.teamDocuments == Some(OrElse(d.teamDocuments, ""))
    ensures s.fileName.None? && s.fileSize.None? && s.description.None?
    ensures s.submittedBy == SnapshotName(who) && s.team == SnapshotTeam(who)
    ensures s.submittedAt == now && s.adminComment.None? && s.reviewedAt.None?
  {
    Submission(id, "prompt", d.name, Some(d.question), Some(d.expectedResponse),
               Some(OrElse(d.teamDocuments, "")), None, None, None,
               SnapshotName(who), SnapshotTeam(who), now, "pending", None, None)
  }

  /** The record `submitFile` builds. */
  function NewFile(d: FileData, who: Option<Submitter>, id: string, now: string): (s: Submission)
    ensures s.id == id && s.kind == d.kind && s.status == "pending" && s.title == d.title
    ensures s.fileName == Some(d.fileName) && s.fileSize == Some(d.fileSize)
    ensures s.description == Some(OrElse(d.description, ""))
    ensures s.content.None? && s.expectedResponse.None? && s.teamDocuments.None?
    ensures s.submittedBy == SnapshotName(who) && s.team == SnapshotTeam(who)
    ensures s.submittedAt == now && s.adminComment.None? && s.reviewedAt.None?
  {
    Submission(id, d.kind, d.title, None, None, None,
               Some(d.fileName), Some(d.fileSize), Some(OrElse(d.description, "")),
               SnapshotName(who), SnapshotTeam(who), now, "pending", None, None)
  }

  /** `{ ...sub, status, adminComment, reviewedAt: now }`: an absent comment
      overwrites the stored one. */
  function Reviewed(s: Submission, status: string, comment: Option<string>, now: string): (r: Submission)
    ensures r == s.(status := status, adminComment := comment, reviewedAt := Some(now))
  {
    s.(status := status, adminComment := comment, reviewedAt := Some(now))
  }

  /** The list rebuild of `updateSubmissionStatus`: every record with the id is
      reviewed, whatever its current status; the others stay as they are. */
  function UpdateStatus(subs: seq<Submission>, id: string, status: string, comment: Option<string>, now: string)
    : (r: seq<Submission>)
    ensures |r| == |subs|
    ensures forall i :: 0 <= i < |subs| ==>
      r[i] == if subs[i].id == id then Reviewed(subs[i], status, comment, now) else subs[i]
  {
    UpdateWhere(subs, (s: Submission) => s.id == id, (s: Submission) => Reviewed(s, status, comment, now))
  }

  /** `getUserSubmissions`: nothing without a user, else the records filed
      under the user's name (undefined matches nothing). */
  function UserSubmissions(subs: seq<Submission>, who: Option<Submitter>): (r: seq<Submission>)
    ensures who.None? ==> r == []
    ensures forall s :: s in r <==> s in subs && who.Some? && who.value.name == Some(s.submittedBy)
  {
    if who.None? then [] else Filter(subs, (s: Submission) => who.value.name == Some(s.submittedBy))
  }

  /** `getPendingSubmissions` */
  function PendingSubmissions(subs: seq<Submission>): (r: seq<Submission>)
    ensures forall s :: s in r <==> s in subs && s.status == "pending"
  {
    Filter(subs, (s: Submission) => s.status == "pending")
  }

  /** A signed-in user with a non-empty name finds what they just submitted
      at the end of their own list. */
  lemma MineAfterSubmit(subs: seq<Submission>, s: Submission, who: Option<Submitter>)
    requires who.Some? && who.value.name.Some? && who.value.name.value != ""
    requires s.submittedBy == SnapshotName(who)
    ensures UserSubmissions(subs + [s], who) == UserSubmissions(subs, who) + [s]
  {
    FilterAppend(subs, [s], (x: Submission) => who.value.name == Some(x.submittedBy));
  }

  /** A user whose name is empty never sees their own submissions: they are
      filed under 'Unknown User'. */
  lemma EmptyNameNotListed(subs: seq<Submission>, s: Submission, who: Option<Submitter>)
    requires who.Some? && who.value.name == Some("")
    requires s.submittedBy == SnapshotName(who)
    ensures s !in UserSubmissions(subs + [s], who)
  {
  }

  /** After a review to a non-pending status the pending view loses exactly
      the records with that id and keeps the rest in order. */
  lemma {:induction false} ReviewLeavesPending(subs: seq<Submission>, id: string, status: string,
                                               comment: Option<string>, now: string)
    requires status != "pending"
    ensures PendingSubmissions(UpdateStatus(subs, id, status, comment, now)) ==
            Filter(PendingSubmissions(subs), (s: Submission) => s.id != id)
  {
    var pend := (s: Submission) => s.status == "pending";
    var other := (s: Submission) => s.id != id;
    if subs != [] {
      var r := UpdateStatus(subs, id, status, comment, now);
      assert r == [r[0]] + r[1..];
      assert r[1..] == UpdateStatus(subs[1..], id, status, comment, now);
      ReviewLeavesPending(subs[1..], id, status, comment, now);
      FilterAppend([r[0]], r[1..], pend);
      assert subs == [subs[0]] + subs[1..];
      FilterAppend([subs[0]], subs[1..], pend);
      FilterAppend(Filter([subs[0]], pend), Filter(subs[1..], pend), other);
    }
  }

  // ---- Sequences of store operations ----

  /** One mutation of the store, with the clock and id it would read. */
  datatype Action =
    | SubmitPrompt(prompt: PromptData, who: Option<Submitter>, id: string, now: string)
    | SubmitFile(file: FileData, who: Option<Submitter>, id: string, now: string)
    | Review(target: string, status: string, comment: Option<string>, now: string)

  function Step(subs: seq<Submission>, a: Action): (r: seq<Submission>)
  {
    match a
    case SubmitPrompt(d, who, id, now) => subs + [NewPrompt(d, who, id, now)]
    case SubmitFile(d, who, id, now) => subs + [NewFile(d, who, id, now)]
    case Review(id, status, comment, now) => UpdateStatus(subs, id, status, comment, now)
  }

  function Run(subs: seq<Submission>, acts: seq<Action>): seq<Submission>
    decreases |acts|
  {
    if acts == [] then subs else Run(Step(subs, acts[0]), acts[1..])
  }

  function SubmitCount(acts: seq<Action>): nat
  {
    if acts == [] then 0 else (if acts[0].Review? then 0 else 1) + SubmitCount(acts[1..])
  }

  /** No operation removes a record: the list grows by one per submission,
      and every existing record keeps its place and its id. */
  lemma {:induction false} RunOnlyGrows(subs: seq<Submission>, acts: seq<Action>)
    ensures |Run(subs, acts)| == |subs| + SubmitCount(acts)
    ensures forall i :: 0 <= i < |subs| ==> Run(subs, acts)[i].id == subs[i].id
    decreases |acts|
  {
    if acts != [] {
      RunOnlyGrows(Step(subs, acts[0]), acts[1..]);
    }
  }

  /** When no review sets 'pending' (the admin pages only pass 'approved' or
      'denied'), a record that has left 'pending' never returns to it. */
  lemma {:induction false} NeverBackToPending(subs: seq<Submission>, acts: seq<Action>, i: nat)
    requires forall k :: 0 <= k < |acts| && acts[k].Review? ==> acts[k].status != "pending"
    requires i < |subs| && subs[i].status != "pending"
    ensures |subs| <= |Run(subs, acts)| && Run(subs, acts)[i].status != "pending"
    decreases |acts|
  {
    if acts != [] {
      assert acts[0].Review? ==> acts[0].status != "pending";
      var next := Step(subs, acts[0]);
      assert i < |next| && next[i].status != "pending";
      NeverBackToPending(next, acts[1..], i);
    }
  }

  /** The store object: the React state list and its storage copy. */
  class SubmissionsStore {
    var submissions: seq<Submission>
    var stored: Option<seq<Submission>>

    ghost predicate Mirrored()
      reads this
    {
      stored == Some(submissions)
    }

    /** The mount effects: adopt a saved list if there is one, then write back. */
    constructor Load(saved: Option<seq<Submission>>)
      ensures submissions == (if saved.Some? then saved.value else [])
      ensures Mirrored()
    {
      submissions := if saved.Some? then saved.value else [];
      stored := Some(submissions);
    }

    /** The effect that rewrites storage whenever the list changes. */
    method Persist()
      modifies this
      ensures submissions == old(submissions) && Mirrored()
    {
      stored := Some(submissions);
    }

    method SubmitPrompt(d: PromptData, who: Option<Submitter>, id: string, now: string) returns (s: Submission)
      modifies this
      ensures s == NewPrompt(d, who, id, now) && s.status == "pending"
      ensures submissions == old(submissions) + [s]
      ensures Mirrored()
    {
      s := NewPrompt(d, who, id, now);
      submissions := submissions + [s];
      Persist();
    }

    method SubmitFile(d: FileData, who: Option<Submitter>, id: string, now: string) returns (s: Submission)
      modifies this
      ensures s == NewFile(d, who, id, now) && s.status == "pending"
      ensures submissions == old(submissions) + [s]
      ensures Mirrored()
    {
      s := NewFile(d, who, id, now);
      submissions := submissions + [s];
      Persist();
    }

    method UpdateSubmissionStatus(id: string, status: string, comment: Option<string>, now: string)
      modifies this
      ensures submissions == UpdateStatus(old(submissions), id, status, comment, now)
      ensures |submissions| == |old(submissions)|
      ensures Mirrored()
    {
      submissions := UpdateStatus(submissions, id, status, comment, now);
      Persist();
    }

    function GetUserSubmissions(who: Option<Submitter>): (r: seq<Submission>)
      reads this
      ensures forall s :: s in r <==> s in submissions && who.Some? && who.value.name == Some(s.submittedBy)
    {
      UserSubmissions(submissions, who)
    }

    function GetPendingSubmissions(): (r: seq<Submission>)
      reads this
      ensures forall s :: s in r <==> s in submissions && s.status == "pending"
    {
      PendingSubmissions(submissions)
    }

    function GetAllSubmissions(): (r: seq<Submission>)
      reads this
      ensures r == submissions
    {
      submissions
    }
  }
}
