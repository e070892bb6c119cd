/** The prompts page (src/pages/user/Prompts.jsx): a local list of draft
    prompts, the new-prompt form that either saves a draft locally or submits
    the prompt to the submissions store, and the button guard both share. */
module PromptDrafts {
  import opened Common
  import opened Submissions

  /** A prompt in the page's local list. */
  datatype Draft = Draft(
    id: string, name: string, question: string, expectedResponse: string,
    status: string, lastEdited: string)

  /** The two prompts the page starts with. */
  function SeedDrafts(): (r: seq<Draft>)
    ensures |r| == 2 && r[0].status == "approved" && r[1].status == "pending"
  {
    [ Draft("1", "Marketing Campaign Analysis", "Analyze the effectiveness of our Q3 marketing campaign",
            "Detailed analysis with metrics and recommendations", "approved", "2024-01-15"),
      Draft("2", "Brand Voice Guidelines", "What are our brand voice guidelines for social media?",
            "Comprehensive brand voice documentation", "pending", "2024-01-10") ]
  }

  /** The new-prompt form (`newPrompt`). */
  datatype PromptForm = PromptForm(name: string, question: string, expectedResponse: string, teamDocuments: string)

  const EmptyPromptForm: PromptForm := PromptForm("", "", "", "")

  /** `disabled={!newPrompt.name || !newPrompt.question}` negated; it guards
      both the draft and the submit buttons. */
  predicate CanSubmit(f: PromptForm)
  {
    f.name != "" && f.question != ""
  }

  /** The draft `handleCreatePrompt` appends; the team documents are dropped. */
  function NewDraft(f: PromptForm, id: string, now: string): (d: Draft)
    ensures d.id == id && d.status == "draft" && d.lastEdited == now
    ensures d.name == f.name && d.question == f.question && d.expectedResponse == f.expectedResponse
  {
    Draft(id, f.name, f.question, f.expectedResponse, "draft", now)
  }

  /** `submitPrompt(newPrompt)`: the whole form, team documents included. */
  function AsPromptData(f: PromptForm): (d: PromptData)
    ensures d.name == f.name && d.question == f.question && d.expectedResponse == f.expectedResponse
    ensures d.teamDocuments == Some(f.teamDocuments)
  {
    PromptData(f.name, f.question, f.expectedResponse, Some(f.teamDocuments))
  }

  /** The form reaches the store unchanged: the record's title, content,
      expected response and team documents are the form's fields, and they
      match the draft the other button would have saved. */
  lemma FormReachesStore(f: PromptForm, who: Option<Submitter>, id: string, now: string)
    ensures var s := NewPrompt(AsPromptData(f), who, id, now);
      var d := NewDraft(f, id, now);
      s.title == f.name && s.content == Some(f.question) &&
      s.expectedResponse == Some(f.expectedResponse) && s.teamDocuments == Some(f.teamDocuments) &&
      s.title == d.name && s.content == Some(d.question) && s.expectedResponse == Some(d.expectedResponse)
  {
  }

  /** With the buttons enabled, neither path can produce a record with an
      empty title or an empty question. */
  lemma EnabledMeansNonEmpty(f: PromptForm, who: Option<Submitter>, id: string, now: string)
    requires CanSubmit(f)
    ensures NewPrompt(AsPromptData(f), who, id, now).title != ""
    ensures NewPrompt(AsPromptData(f), who, id, now).content.value != ""
    ensures NewDraft(f, id, now).name != "" && NewDraft(f, id, now).question != ""
  {
  }

  /** The Submissions tab: `userSubmissions.length`. */
  function SubmissionsTabCount(subs: seq<Submission>, who: Option<Submitter>): (n: nat)
    ensures who.None? ==> n == 0
    ensures n <= |subs|
  {
    |UserSubmissions(subs, who)|
  }

  /** A submission by a signed-in user with a name raises that user's tab
      count by exactly one. */
  lemma SubmitRaisesTabCount(subs: seq<Submission>, f: PromptForm, who: Option<Submitter>, id: string, now: string)
    requires who.Some? && who.value.name.Some? && who.value.name.value != ""
    ensures SubmissionsTabCount(subs + [NewPrompt(AsPromptData(f), who, id, now)], who) ==
            SubmissionsTabCount(subs, who) + 1
  {
    MineAfterSubmit(subs, NewPrompt(AsPromptData(f), who, id, now), who);
  }

  /** The page's state: the local list, the form and the dialog. */
  class PromptsPage {
    var prompts: seq<Draft>
    var form: PromptForm
    var dialogOpen: bool

    constructor ()
      ensures prompts == SeedDrafts() && form == EmptyPromptForm && !dialogOpen
    {
      prompts, form, dialogOpen := SeedDrafts(), EmptyPromptForm, false;
    }

    /** `handleCreatePrompt`: one draft at the end, existing ones untouched. */
    method HandleCreatePrompt(id: string, now: string) returns (d: Draft)
      modifies this
      ensures d == NewDraft(old(form), id, now) && d.status == "draft"
      ensures prompts == old(prompts) + [d]
      ensures form == EmptyPromptForm && !dialogOpen
    {
      d := NewDraft(form, id, now);
      prompts := prompts + [d];
      form := EmptyPromptForm;
      dialogOpen := false;
    }

    /** `handleSubmitForReview`: the form goes to the store; the local list
        does not change. */
    method HandleSubmitForReview(store: SubmissionsStore, who: Option<Submitter>, id: string, now: string)
      returns (s: Submission)
      modifies this, store
      ensures s == NewPrompt(AsPromptData(old(form)), who, id, now)
      ensures store.submissions == old(store.submissions) + [s] && store.Mirrored()
      ensures prompts == old(prompts)
      ensures form == EmptyPromptForm && !dialogOpen
    {
      s := store.SubmitPrompt(AsPromptData(form), who, id, now);
      form := EmptyPromptForm;
      dialogOpen := false;
    }
  }
}
