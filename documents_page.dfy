/**
 * The documents page: the PDF-only file gate, the upload form's field-error
 * map, the upload that prepends a "processing" document, the later event that
 * marks it indexed, the title/company/status filter and the save-on-change effect.
 */
module DocumentsPage {
  import opened Wrappers
  import opened Data
  import opened Text
  import opened Seqs
  import Reconcile
  import DocumentStore

  /** The document types the form offers; the first is preselected. */
  const DocumentTypes: seq<string> :=
    ["Annual Report", "Research Paper", "Filing", "Transcript", "ESG Report", "Policy", "Whitepaper", "Earnings Call"]

  /** The status tabs above the list. */
  const Tabs: seq<string> := ["All", "Indexed", "Processing", "Queued"]

  /** The only media type the file input accepts. */
  const PdfType: string := "application/pdf"

  const FileRequired: string := "Please select a PDF file"
  const CompanyRequired: string := "Company name is required"
  const OnlyPdf: string := "Only PDF files are allowed"

  /** A chosen file, as far as the page looks at it: its name and its media type. */
  datatype File = File(name: string, mediaType: string)

  datatype UploadForm = UploadForm(company: string, docType: string)

  /** The form as the page opens it and as every reset leaves it. */
  const EmptyForm: UploadForm := UploadForm("", DocumentTypes[0])

  /** What the form must satisfy to be uploaded: a file is held and the trimmed company is not empty. */
  predicate Acceptable(file: Option<File>, form: UploadForm) {
    file.Some? && Trim(form.company) != []
  }

  /**
   * `validateForm`'s error map: a file entry exactly when no file is held, a
   * company entry exactly when the trimmed company is empty, nothing else, and
   * no keys exactly when the upload is acceptable.
   */
  function ValidateUpload(file: Option<File>, form: UploadForm): (errors: map<string, string>)
    ensures "file" in errors <==> file.None?
    ensures "file" in errors ==> errors["file"] == FileRequired
    ensures "company" in errors <==> Trim(form.company) == []
    ensures "company" in errors ==> errors["company"] == CompanyRequired
    ensures errors.Keys <= {"file", "company"}
    ensures errors == map[] <==> Acceptable(file, form)
  {
    var withFile := if file.None? then map["file" := FileRequired] else map[];
    if Trim(form.company) == [] then withFile["company" := CompanyRequired] else withFile
  }

  /**
   * The title of an uploaded document: the file name with its first ".pdf"
   * removed, and the name itself when ".pdf" does not occur in it.
   */
  function TitleOf(fileName: string): (t: string)
    ensures !Contains(fileName, ".pdf") ==> t == fileName
    ensures Contains(fileName, ".pdf") ==> |t| == |fileName| - 4
  {
    ReplaceFirst(fileName, ".pdf", "")
  }

  /** A name that is some `base` without ".pdf" followed by the extension has `base` as its title. */
  lemma TitleDropsExtension(base: string)
    requires !Contains(base, ".pdf")
    ensures TitleOf(base + ".pdf") == base
  {
    var s := base + ".pdf";
    assert s[|base|..|base| + 4] == ".pdf";
    forall j: nat | j < |base|
      ensures !OccursAt(s, ".pdf", j)
    {
      if j + 4 <= |base| {
        assert s[j..j + 4] == base[j..j + 4];
        assert !OccursAt(base, ".pdf", j);
      } else {
        assert s[|base|] == '.';
        if j + 4 <= |s| {
          assert s[j..j + 4][|base| - j] == '.' != ".pdf"[|base| - j];
        }
      }
    }
    ReplaceFirstAt(s, ".pdf", "", |base|);
    assert s[..|base|] + "" + s[|base| + 4..] == base;
  }

  /** Only the first ".pdf" goes: what follows it is kept as it was, later occurrences included. */
  lemma TitleKeepsTheRest(fileName: string, i: nat)
    requires OccursAt(fileName, ".pdf", i)
    requires forall j: nat :: j < i ==> !OccursAt(fileName, ".pdf", j)
    ensures TitleOf(fileName) == fileName[..i] + fileName[i + 4..]
  {
    ReplaceFirstAt(fileName, ".pdf", "", i);
  }

  /**
   * The document `handleUpload` builds: a `user-` id from the timestamp, the
   * file's title, the trimmed company, the chosen type, today's date, a page
   * count of 10 plus a random roll below 150, and the status "processing".
   */
  function NewDocument(file: File, form: UploadForm, stamp: string, today: string, roll: nat): (d: Document)
    requires roll < 150
    ensures 10 <= d.pages <= 159
    ensures d.status == Processing
  {
    Document("user-" + stamp, TitleOf(file.name), Trim(form.company), form.docType, today, roll + 10, Processing)
  }

  /**
   * The deferred completion: the documents carrying `id` become "indexed", every
   * other document is kept as it was, and nothing moves.
   */
  function MarkIndexed(docs: seq<Document>, id: string): (r: seq<Document>)
    ensures |r| == |docs|
    ensures forall i :: 0 <= i < |r| ==> r[i].(status := docs[i].status) == docs[i]
    ensures forall i :: 0 <= i < |r| ==> r[i].status == (if docs[i].id == id then Indexed else docs[i].status)
  {
    seq(|docs|, i requires 0 <= i < |docs| => if docs[i].id == id then docs[i].(status := Indexed) else docs[i])
  }

  /** Completing an id that is not in the list changes nothing. */
  lemma MarkIndexedAbsent(docs: seq<Document>, id: string)
    requires !Reconcile.HasId(docs, DocumentId, id)
    ensures MarkIndexed(docs, id) == docs
  {
    var r := MarkIndexed(docs, id);
    forall i | 0 <= i < |docs| ensures r[i] == docs[i] {
      assert DocumentId(docs[i]) != id;
    }
  }

  /** Completing the same id twice is the same as completing it once. */
  lemma MarkIndexedIdempotent(docs: seq<Document>, id: string)
    ensures MarkIndexed(MarkIndexed(docs, id), id) == MarkIndexed(docs, id)
  {
  }

  /**
   * Upload then completion: when the new id is not already in the list, the
   * completion turns exactly the uploaded document to "indexed" and leaves the
   * rest of the list as it was.
   */
  lemma UploadThenComplete(file: File, form: UploadForm, stamp: string, today: string, roll: nat, docs: seq<Document>)
    requires roll < 150
    requires !Reconcile.HasId(docs, DocumentId, "user-" + stamp)
    ensures var d := NewDocument(file, form, stamp, today, roll);
            MarkIndexed([d] + docs, d.id) == [d.(status := Indexed)] + docs
  {
    var d := NewDocument(file, form, stamp, today, roll);
    MarkIndexedAbsent(docs, d.id);
    var r := MarkIndexed([d] + docs, d.id);
    assert r[1..] == MarkIndexed(docs, d.id);
  }

  /**
   * A document is listed when the lower-cased search occurs in its lower-cased
   * title or company, and the tab is "All" or names its status, ignoring case.
   */
  predicate Listed(d: Document, search: string, tab: string) {
    && (Contains(Lower(d.title), Lower(search)) || Contains(Lower(d.company), Lower(search)))
    && (tab == "All" || Lower(d.status.Name()) == Lower(tab))
  }

  function ListedFilter(search: string, tab: string): Document -> bool {
    d => Listed(d, search, tab)
  }

  /** `filtered`: exactly the listed documents, in list order, each as many times as it is listed. */
  function FilterDocuments(documents: seq<Document>, search: string, tab: string): (r: seq<Document>)
    ensures IsSubsequence(r, documents)
    ensures forall i :: 0 <= i < |r| ==> Listed(r[i], search, tab)
    ensures forall j :: 0 <= j < |documents| && Listed(documents[j], search, tab) ==> documents[j] in r
    ensures multiset(r) <= multiset(documents)
    ensures forall d :: d in documents ==>
              multiset(r)[d] == if Listed(d, search, tab) then multiset(documents)[d] else 0
  {
    FilterIsSubsequence(documents, ListedFilter(search, tab));
    FilterCount(documents, ListedFilter(search, tab));
    Filter(documents, ListedFilter(search, tab))
  }

  /** Each status tab other than "All" selects exactly the documents with that status. */
  lemma TabsSelectStatus(s: DocumentStatus)
    ensures Lower(s.Name()) == Lower(Tabs[1]) <==> s == Indexed
    ensures Lower(s.Name()) == Lower(Tabs[2]) <==> s == Processing
    ensures Lower(s.Name()) == Lower(Tabs[3]) <==> s == Queued
  {
    assert Tabs[1] == "Indexed" && Tabs[2] == "Processing" && Tabs[3] == "Queued";
    assert Lower("Indexed") == "indexed" && Lower("Processing") == "processing" && Lower("Queued") == "queued";
    assert Lower("indexed") == "indexed" && Lower("processing") == "processing";
    assert Lower("queued") == "queued" && Lower("failed") == "failed";
  }

  /** With an empty search on the "All" tab, the whole list is shown. */
  lemma EverythingListedByDefault(documents: seq<Document>)
    ensures FilterDocuments(documents, "", "All") == documents
  {
    forall i | 0 <= i < |documents| ensures ListedFilter("", "All")(documents[i]) {
      ContainsEmpty(Lower(documents[i].title));
    }
    FilterKeepsAll(documents, ListedFilter("", "All"));
  }

  /** The state of the documents page. */
  class DocumentsPage {
    var loading: bool
    var search: string
    var tab: string
    var documentsList: seq<Document>
    var showUploadModal: bool
    var uploadedFile: Option<File>
    var form: UploadForm
    var formErrors: map<string, string>

    /** The page as first rendered: loading, an empty list, no file and an empty form. */
    constructor ()
      ensures loading && search == "" && tab == "All" && documentsList == []
      ensures !showUploadModal && uploadedFile == None && form == EmptyForm && formErrors == map[]
    {
      loading := true;
      search := "";
      tab := "All";
      documentsList := [];
      showUploadModal := false;
      uploadedFile := None;
      form := EmptyForm;
      formErrors := map[];
    }

    /** The end of the mount effect's load: the list comes from the store and loading stops. */
    method FinishLoading(storage: Reconcile.LocalStorage?<Document>)
      modifies this
      ensures storage == null || storage.Read(DocumentStore.StorageKey).None? ==> documentsList == SeedDocuments
      ensures storage != null && storage.Read(DocumentStore.StorageKey).Some? ==>
                documentsList == Reconcile.Merge(storage.Read(DocumentStore.StorageKey).value, SeedDocuments, DocumentId)
      ensures !loading
      ensures search == old(search) && tab == old(tab) && showUploadModal == old(showUploadModal)
      ensures uploadedFile == old(uploadedFile) && form == old(form) && formErrors == old(formErrors)
    {
      documentsList := DocumentStore.GetPersistedDocuments(storage);
      loading := false;
    }

    /** The save-on-change effect: the list is saved unless it is empty, in which case storage is left alone. */
    method PersistEffect(storage: Reconcile.LocalStorage?<Document>)
      modifies storage
      ensures storage != null && |documentsList| > 0 ==>
                storage.slots == old(storage.slots)[DocumentStore.StorageKey :=
                  Some(Reconcile.UserAdded(documentsList, SeedDocuments, DocumentId))]
      ensures storage != null && |documentsList| == 0 ==> storage.slots == old(storage.slots)
    {
      if |documentsList| > 0 {
        DocumentStore.SaveUserDocuments(storage, documentsList);
      }
    }

    /**
     * `handleFileChange`: no file changes nothing; a PDF is held and its error
     * blanked; any other file is refused, dropping the one held before.
     */
    method HandleFileChange(file: Option<File>)
      modifies this
      ensures file.None? ==> uploadedFile == old(uploadedFile) && formErrors == old(formErrors)
      ensures file.Some? && file.value.mediaType == PdfType ==>
                uploadedFile == file && formErrors == old(formErrors)["file" := ""]
      ensures file.Some? && file.value.mediaType != PdfType ==>
                uploadedFile == None && formErrors == old(formErrors)["file" := OnlyPdf]
      ensures uploadedFile.Some? ==> uploadedFile.value.mediaType == PdfType || uploadedFile == old(uploadedFile)
      ensures loading == old(loading) && search == old(search) && tab == old(tab)
      ensures documentsList == old(documentsList) && showUploadModal == old(showUploadModal) && form == old(form)
    {
      if file.Some? {
        if file.value.mediaType == PdfType {
          uploadedFile := file;
          formErrors := formErrors["file" := ""];
        } else {
          formErrors := formErrors["file" := OnlyPdf];
          uploadedFile := None;
        }
      }
    }

    /** Typing a company: the form takes it and the company error is blanked (its key stays). */
    method EditCompany(company: string)
      modifies this
      ensures form == old(form).(company := company) && formErrors == old(formErrors)["company" := ""]
      ensures loading == old(loading) && search == old(search) && tab == old(tab)
      ensures documentsList == old(documentsList) && showUploadModal == old(showUploadModal)
      ensures uploadedFile == old(uploadedFile)
    {
      form := form.(company := company);
      formErrors := formErrors["company" := ""];
    }

    /** `resetForm`: no file, the empty form and no errors. */
    method ResetForm()
      modifies this
      ensures uploadedFile == None && form == EmptyForm && formErrors == map[]
      ensures loading == old(loading) && search == old(search) && tab == old(tab)
      ensures documentsList == old(documentsList) && showUploadModal == old(showUploadModal)
    {
      uploadedFile := None;
      form := EmptyForm;
      formErrors := map[];
    }

    /** Closing the modal by Escape, the backdrop or Cancel: the modal hides and the form resets. */
    method CloseUploadModal()
      modifies this
      ensures !showUploadModal && uploadedFile == None && form == EmptyForm && formErrors == map[]
      ensures loading == old(loading) && search == old(search) && tab == old(tab)
      ensures documentsList == old(documentsList)
    {
      showUploadModal := false;
      ResetForm();
    }

    /** `validateForm`: records the error map and reports whether the upload is acceptable. */
    method ValidateForm() returns (ok: bool)
      modifies this
      ensures ok <==> Acceptable(uploadedFile, form)
      ensures formErrors == ValidateUpload(uploadedFile, form)
      ensures loading == old(loading) && search == old(search) && tab == old(tab)
      ensures documentsList == old(documentsList) && showUploadModal == old(showUploadModal)
      ensures uploadedFile == old(uploadedFile) && form == old(form)
    {
      formErrors := ValidateUpload(uploadedFile, form);
      ok := formErrors == map[];
    }

    /**
     * `handleUpload`: a rejected upload only records the errors; an accepted one
     * puts the new "processing" document in front of the unchanged list, closes
     * the modal, resets the form and returns the id the completion will carry.
     */
    method HandleUpload(stamp: string, today: string, roll: nat) returns (pending: Option<string>)
      requires roll < 150
      modifies this
      ensures pending.Some? <==> Acceptable(old(uploadedFile), old(form))
      ensures pending.None? ==> documentsList == old(documentsList) && uploadedFile == old(uploadedFile)
                                && form == old(form) && formErrors == ValidateUpload(old(uploadedFile), old(form))
                                && showUploadModal == old(showUploadModal)
      ensures pending.Some? ==>
                && documentsList == [NewDocument(old(uploadedFile).value, old(form), stamp, today, roll)] + old(documentsList)
                && pending.value == documentsList[0].id
                && !showUploadModal && uploadedFile == None && form == EmptyForm && formErrors == map[]
      ensures loading == old(loading) && search == old(search) && tab == old(tab)
    {
      var ok := ValidateForm();
      if !ok || uploadedFile.None? {
        return None;
      }
      var d := NewDocument(uploadedFile.value, form, stamp, today, roll);
      documentsList := [d] + documentsList;
      showUploadModal := false;
      ResetForm();
      pending := Some(d.id);
    }

    /** The timer firing after an upload: the documents carrying `id` become "indexed". */
    method CompleteProcessing(id: string)
      modifies this
      ensures documentsList == MarkIndexed(old(documentsList), id)
      ensures loading == old(loading) && search == old(search) && tab == old(tab)
      ensures showUploadModal == old(showUploadModal) && uploadedFile == old(uploadedFile)
      ensures form == old(form) && formErrors == old(formErrors)
    {
      documentsList := MarkIndexed(documentsList, id);
    }
  }
}
