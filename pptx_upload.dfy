/** The PowerPoint upload page (src/pages/user/PowerPointUpload.jsx): the
    file acceptance test, the title derived from the file name, the upload
    form handed to the submissions store, and the listing of the user's own
    PowerPoint submissions. */
module PptxUpload {
  import opened Common
  import opened Strings
  import opened Submissions

  const PptxMime: string := "application/vnd.openxmlformats-officedocument.presentationml.presentation"
  const PptxExt: string := ".pptx"

  /** The browser `File` object: its name, its MIME `type` and its size. */
  datatype FileInfo = FileInfo(name: string, mimeType: string, size: int)

  /** The acceptance test of `handleFileSelect`. */
  predicate Accepts(f: FileInfo)
  {
    f.mimeType == PptxMime || EndsWith(f.name, PptxExt)
  }

  /** `file.name.replace('.pptx', '')`: drops the first '.pptx' in the name. */
  function DefaultTitle(name: string): (r: string)
    ensures !Contains(name, PptxExt) ==> r == name
    ensures Contains(name, PptxExt) ==> |r| == |name| - |PptxExt|
    ensures forall i :: IndexOf(name, PptxExt) == Some(i) ==> r == name[..i] + name[i + |PptxExt|..]
  {
    ReplaceFirst(name, PptxExt, "")
  }

  /** The title after a file is accepted: an empty title is replaced by the
      derived one, a typed title is kept. */
  function TitleAfterSelect(current: string, fileName: string): (r: string)
    ensures current != "" ==> r == current
    ensures current == "" ==> r == DefaultTitle(fileName)
  {
    if current == "" then DefaultTitle(fileName) else current
  }

  /** No proper suffix of '.pptx' is also a prefix of it: the only dot is
      the first character. */
  lemma ExtOccursOnlyAtEnd(base: string, j: nat)
    requires !Contains(base, PptxExt)
    requires j < |base|
    ensures !OccursAt(base + PptxExt, PptxExt, j)
  {
    var s := base + PptxExt;
    if j + |PptxExt| <= |base| {
      assert !OccursAt(base, PptxExt, j);
      assert s[j..j + |PptxExt|] == base[j..j + |PptxExt|];
    } else {
      assert s[|base|] == '.' && PptxExt[|base| - j] != '.';
    }
  }

  /** The title derived from '<base>.pptx' is `base` when the base itself
      holds no '.pptx'. */
  lemma TitleOfPlainName(base: string)
    requires !Contains(base, PptxExt)
    ensures DefaultTitle(base + PptxExt) == base
  {
    var s := base + PptxExt;
    assert s[|base|..|base| + |PptxExt|] == PptxExt;
    assert OccursAt(s, PptxExt, |base|);
    forall j | 0 <= j < |base| ensures !OccursAt(s, PptxExt, j) {
      ExtOccursOnlyAtEnd(base, j);
    }
    assert IndexOf(s, PptxExt) == Some(|base|);
    assert s[..|base|] == base;
  }

  /** A name ending in '.pptx' is accepted whatever the MIME type says, and a
      file accepted on its MIME type alone keeps its whole name as title. */
  lemma AcceptanceByNameOrType(base: string, mimeType: string, size: int)
    ensures Accepts(FileInfo(base + PptxExt, mimeType, size))
    ensures !Contains(base, PptxExt) ==> DefaultTitle(base) == base
  {
    var n := base + PptxExt;
    assert n[|n| - |PptxExt|..] == PptxExt;
  }

  /** The upload dialog's form. */
  datatype UploadForm = UploadForm(title: string, description: string, file: Option<FileInfo>)

  const EmptyUpload: UploadForm := UploadForm("", "", None)

  /** The object `handleSubmitFile` passes to `submitFile`. */
  function UploadData(form: UploadForm): (d: FileData)
    requires form.file.Some?
    ensures d.kind == "pptx" && d.title == form.title && d.description == Some(form.description)
    ensures d.fileName == form.file.value.name && d.fileSize == form.file.value.size
  {
    FileData("pptx", form.title, form.file.value.name, form.file.value.size, Some(form.description))
  }

  /** `disabled={!uploadForm.file || !uploadForm.title}` negated. */
  predicate SubmitEnabled(form: UploadForm)
  {
    form.file.Some? && form.title != ""
  }

  /** The submitted record carries what the form held: the file's name and
      size, the title, and the description (an empty one stays ''). */
  lemma UploadRecord(form: UploadForm, who: Option<Submitter>, id: string, now: string)
    requires SubmitEnabled(form)
    ensures var s := NewFile(UploadData(form), who, id, now);
      s.kind == "pptx" && s.status == "pending" && s.title == form.title && s.title != "" &&
      s.fileName == Some(form.file.value.name) && s.fileSize == Some(form.file.value.size) &&
      s.description == Some(form.description)
  {
  }

  /** `getUserSubmissions().filter(sub => sub.type === 'pptx')` */
  function Listing(subs: seq<Submission>, who: Option<Submitter>): (r: seq<Submission>)
    ensures forall s :: s in r <==>
      s in subs && who.Some? && who.value.name == Some(s.submittedBy) && s.kind == "pptx"
  {
    Filter(UserSubmissions(subs, who), (s: Submission) => s.kind == "pptx")
  }

  /** An upload by a signed-in user with a name appears at the end of that
      user's listing. */
  lemma UploadListed(subs: seq<Submission>, form: UploadForm, who: Option<Submitter>, id: string, now: string)
    requires form.file.Some?
    requires who.Some? && who.value.name.Some? && who.value.name.value != ""
    ensures var s := NewFile(UploadData(form), who, id, now);
      Listing(subs + [s], who) == Listing(subs, who) + [s]
  {
    var s := NewFile(UploadData(form), who, id, now);
    MineAfterSubmit(subs, s, who);
    FilterAppend(UserSubmissions(subs, who), [s], (x: Submission) => x.kind == "pptx");
  }

  /** The page's state: the dialog, its form and the file input's value. */
  class UploadPage {
    var form: UploadForm
    var dialogOpen: bool
    /** What the file input holds; clearing it is `value = ''`. */
    var input: Option<FileInfo>

    constructor ()
      ensures form == EmptyUpload && !dialogOpen && input.None?
    {
      form, dialogOpen, input := EmptyUpload, false, None;
    }

    /** `handleFileSelect`: `picked` is `files[0]`, absent when the picker was
        dismissed. A rejected file leaves the form alone and clears the input. */
    method HandleFileSelect(picked: Option<FileInfo>)
      modifies this
      ensures dialogOpen == old(dialogOpen)
      ensures picked.None? ==> form == old(form) && input == old(input)
      ensures picked.Some? && Accepts(picked.value) ==>
        form == old(form).(file := picked, title := TitleAfterSelect(old(form).title, picked.value.name)) &&
        input == picked
      ensures picked.Some? && !Accepts(picked.value) ==> form == old(form) && input.None?
    {
      if picked.Some? {
        var f := picked.value;
        input := picked;
        if f.mimeType == PptxMime || EndsWith(f.name, PptxExt) {
          form := form.(file := picked);
          if form.title == "" {
            form := form.(title := DefaultTitle(f.name));
          }
        } else {
          input := None;
        }
      }
    }

    /** `handleSubmitFile`: without a file nothing is submitted and nothing
        changes; otherwise the file goes to the store and the dialog resets. */
    method HandleSubmitFile(store: SubmissionsStore, who: Option<Submitter>, id: string, now: string)
      returns (submitted: Option<Submission>)
      modifies this, store
      ensures old(form).file.None? ==>
        submitted.None? && form == old(form) && dialogOpen == old(dialogOpen) && input == old(input) &&
        store.submissions == old(store.submissions) && store.stored == old(store.stored)
      ensures old(form).file.Some? ==>
        submitted == Some(NewFile(UploadData(old(form)), who, id, now)) &&
        store.submissions == old(store.submissions) + [submitted.value] && store.Mirrored() &&
        form == EmptyUpload && !dialogOpen && input.None?
    {
      if form.file.None? {
        return None;
      }
      var s := store.SubmitFile(UploadData(form), who, id, now);
      submitted := Some(s);
      form := EmptyUpload;
      dialogOpen := false;
      input := None;
    }
  }
}
