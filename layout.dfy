/**
 * The top bar's logic: the omnisearch over the company and document lists,
 * and the notification inbox with its one-way read flags.
 */
module Layout {
  import opened Data
  import opened Text
  import opened Seqs
  import Reconcile
  import CompanyStore
  import DocumentStore

  /** Each result group shows at most this many entries. */
  const GroupSize: nat := 5

  /** A company matches when the lower-cased query occurs in its lower-cased name or sector. */
  predicate CompanyMatches(c: Company, query: string) {
    Contains(Lower(c.name), Lower(query)) || Contains(Lower(c.sector), Lower(query))
  }

  /** A document matches when the lower-cased query occurs in its lower-cased title, company or type. */
  predicate DocumentMatches(d: Document, query: string) {
    || Contains(Lower(d.title), Lower(query))
    || Contains(Lower(d.company), Lower(query))
    || Contains(Lower(d.docType), Lower(query))
  }

  /** The search predicate over companies for one query. */
  function CompanyFilter(query: string): Company -> bool {
    c => CompanyMatches(c, query)
  }

  /** The search predicate over documents for one query. */
  function DocumentFilter(query: string): Document -> bool {
    d => DocumentMatches(d, query)
  }

  /**
   * `matchedCompanies`: nothing for a query that is blank after trimming;
   * otherwise the first five matching companies, in list order. Matching uses
   * the query as typed, untrimmed.
   */
  function MatchedCompanies(query: string, companies: seq<Company>): (r: seq<Company>)
    ensures Trim(query) == [] ==> r == []
    ensures |r| <= GroupSize
    ensures IsSubsequence(r, companies)
    ensures forall i :: 0 <= i < |r| ==> CompanyMatches(r[i], query)
    ensures Trim(query) != [] ==> r <= Filter(companies, CompanyFilter(query))
    ensures Trim(query) != [] ==>
              |r| == if |Filter(companies, CompanyFilter(query))| < GroupSize then |Filter(companies, CompanyFilter(query))| else GroupSize
    ensures Trim(query) != [] && |r| < GroupSize ==>
              forall j :: 0 <= j < |companies| && CompanyMatches(companies[j], query) ==> companies[j] in r
  {
    if Trim(query) == [] then []
    else
      FirstMatches(companies, CompanyFilter(query), GroupSize);
      Take(Filter(companies, CompanyFilter(query)), GroupSize)
  }

  /**
   * `matchedDocuments`: nothing for a query that is blank after trimming;
   * otherwise the first five matching documents, in list order.
   */
  function MatchedDocuments(query: string, documents: seq<Document>): (r: seq<Document>)
    ensures Trim(query) == [] ==> r == []
    ensures |r| <= GroupSize
    ensures IsSubsequence(r, documents)
    ensures forall i :: 0 <= i < |r| ==> DocumentMatches(r[i], query)
    ensures Trim(query) != [] ==> r <= Filter(documents, DocumentFilter(query))
    ensures Trim(query) != [] ==>
              |r| == if |Filter(documents, DocumentFilter(query))| < GroupSize then |Filter(documents, DocumentFilter(query))| else GroupSize
    ensures Trim(query) != [] && |r| < GroupSize ==>
              forall j :: 0 <= j < |documents| && DocumentMatches(documents[j], query) ==> documents[j] in r
  {
    if Trim(query) == [] then []
    else
      FirstMatches(documents, DocumentFilter(query), GroupSize);
      Take(Filter(documents, DocumentFilter(query)), GroupSize)
  }

  /**
   * `hasResults`: true exactly when the query is not blank and some company or
   * some document matches it.
   */
  function HasResults(query: string, companies: seq<Company>, documents: seq<Document>): (b: bool)
    ensures b <==> Trim(query) != [] &&
                   ((exists j :: 0 <= j < |companies| && CompanyMatches(companies[j], query)) ||
                    (exists j :: 0 <= j < |documents| && DocumentMatches(documents[j], query)))
  {
    var cs := MatchedCompanies(query, companies);
    var ds := MatchedDocuments(query, documents);
    assert cs != [] ==> cs[0] in companies by { SubsequenceElements(cs, companies); }
    assert ds != [] ==> ds[0] in documents by { SubsequenceElements(ds, documents); }
    |cs| > 0 || |ds| > 0
  }

  /** The result count in the dropdown's footer never exceeds ten. */
  lemma ResultTotalAtMostTen(query: string, companies: seq<Company>, documents: seq<Document>)
    ensures |MatchedCompanies(query, companies)| + |MatchedDocuments(query, documents)| <= 2 * GroupSize
  {
  }

  /** When at least five entries match, each group shows exactly five. */
  lemma FullGroups(query: string, companies: seq<Company>, documents: seq<Document>)
    requires Trim(query) != []
    ensures |Filter(companies, CompanyFilter(query))| >= GroupSize ==>
              |MatchedCompanies(query, companies)| == GroupSize
    ensures |Filter(documents, DocumentFilter(query))| >= GroupSize ==>
              |MatchedDocuments(query, documents)| == GroupSize
  {
  }

  /** When every entry matches a non-blank query, each group is the first five entries of its list. */
  lemma AllMatchingGivesFirstFive(query: string, companies: seq<Company>, documents: seq<Document>)
    requires Trim(query) != []
    requires forall j :: 0 <= j < |companies| ==> CompanyMatches(companies[j], query)
    requires forall j :: 0 <= j < |documents| ==> DocumentMatches(documents[j], query)
    ensures MatchedCompanies(query, companies) == Take(companies, GroupSize)
    ensures MatchedDocuments(query, documents) == Take(documents, GroupSize)
  {
    FilterKeepsAll(companies, CompanyFilter(query));
    FilterKeepsAll(documents, DocumentFilter(query));
  }

  /** " bank" loses its leading space to `TrimStart`. */
  lemma SpacedBankTrimStart()
    ensures TrimStart(" bank") == "bank"
  {
    assert " bank"[1..] == "bank";
  }

  /** "bank" and " bank" are lower case already, and both trim to "bank". */
  lemma BankQueryText()
    ensures Lower("bank") == "bank" && Lower(" bank") == " bank"
    ensures Trim("bank") == "bank" && Trim(" bank") == "bank"
  {
    SpacedBankTrimStart();
  }

  /** HDFC Bank matches "bank" through its name, "hdfc bank". */
  lemma HdfcMatchesBank()
    ensures CompanyMatches(SeedCompanies[1], "bank")
  {
    assert SeedCompanies[1].name == "HDFC Bank";
    assert Lower("HDFC Bank") == "hdfc bank";
    assert Lower("bank") == "bank";
    assert OccursAt("hdfc bank", "bank", 5);
  }

  /** Infosys does not match "bank": no 'b' occurs in "infosys" or "it services". */
  lemma InfosysMissesBank()
    ensures !CompanyMatches(SeedCompanies[3], "bank")
  {
    assert SeedCompanies[3].name == "Infosys" && SeedCompanies[3].sector == "IT Services";
    assert Lower("bank") == "bank";
    NotContainedWithoutFirstChar(Lower("Infosys"), "bank");
    NotContainedWithoutFirstChar(Lower("IT Services"), "bank");
  }

  /** SBI matches "bank" through its sector, "banking". */
  lemma SbiMatchesBank()
    ensures CompanyMatches(SeedCompanies[6], "bank")
  {
    assert SeedCompanies[6].sector == "Banking";
    assert Lower("Banking") == "banking";
    assert Lower("bank") == "bank";
    assert OccursAt("banking", "bank", 0);
  }

  /** SBI does not match " bank": no space occurs in "sbi" or "banking". */
  lemma SbiMissesSpacedBank()
    ensures !CompanyMatches(SeedCompanies[6], " bank")
  {
    assert SeedCompanies[6].name == "SBI" && SeedCompanies[6].sector == "Banking";
    assert Lower(" bank") == " bank";
    NotContainedWithoutFirstChar(Lower("SBI"), " bank");
    NotContainedWithoutFirstChar(Lower("Banking"), " bank");
  }

  /** Searching "bank" among HDFC Bank and Infosys finds HDFC Bank only. */
  lemma BankQueryExample()
    ensures MatchedCompanies("bank", [SeedCompanies[1], SeedCompanies[3]]) == [SeedCompanies[1]]
  {
    var hdfc, infosys := SeedCompanies[1], SeedCompanies[3];
    BankQueryText();
    HdfcMatchesBank();
    InfosysMissesBank();
    assert [hdfc, infosys][1..] == [infosys];
    assert Filter([hdfc, infosys], CompanyFilter("bank")) == [hdfc];
  }

  /**
   * Blankness is judged on the trimmed query but matching on the query as
   * typed: " bank" is not blank, yet finds nothing in SBI, while "bank" finds it.
   */
  lemma UntrimmedQueryExample()
    ensures Trim(" bank") != []
    ensures MatchedCompanies(" bank", [SeedCompanies[6]]) == []
    ensures MatchedCompanies("bank", [SeedCompanies[6]]) == [SeedCompanies[6]]
  {
    var sbi := SeedCompanies[6];
    BankQueryText();
    SbiMatchesBank();
    SbiMissesSpacedBank();
    assert Filter([sbi], CompanyFilter(" bank")) == [];
    assert Filter([sbi], CompanyFilter("bank")) == [sbi];
  }

  /** `showDropdown`: the input has focus and the query holds a character other than white space. */
  function ShowDropdown(isFocused: bool, query: string): (b: bool)
    ensures b <==> isFocused && exists k :: 0 <= k < |query| && !IsWhiteSpace(query[k])
  {
    TrimSpec(query);
    isFocused && |Trim(query)| > 0
  }

  predicate IsUnread(n: Notification) {
    !n.read
  }

  /** The notifications that are still unread, in inbox order. */
  function Unread(ns: seq<Notification>): seq<Notification> {
    Filter(ns, IsUnread)
  }

  /**
   * `unreadCount`: the number of positions of the inbox holding an unread
   * notification; zero exactly when all are read.
   */
  function UnreadCount(ns: seq<Notification>): (n: nat)
    ensures n == |set i | 0 <= i < |ns| && !ns[i].read|
    ensures n <= |ns|
    ensures n == 0 <==> forall i :: 0 <= i < |ns| ==> ns[i].read
  {
    NoneUnreadIffAllRead(ns);
    UnreadIndexCount(ns);
    |Unread(ns)|
  }

  /** The unread filter keeps one entry per unread position. */
  lemma {:induction false} UnreadIndexCount(ns: seq<Notification>)
    ensures |Unread(ns)| == |set i | 0 <= i < |ns| && !ns[i].read|
    decreases |ns|
  {
    if ns != [] {
      var m := |ns| - 1;
      UnreadIndexCount(ns[..m]);
      UnreadSnoc(ns[..m], ns[m]);
      assert ns[..m] + [ns[m]] == ns;
      UnreadPositionsSnoc(ns);
    }
  }

  /** Appending a notification adds one to the unread filter exactly when it is unread. */
  lemma UnreadSnoc(ns: seq<Notification>, x: Notification)
    ensures |Unread(ns + [x])| == |Unread(ns)| + if x.read then 0 else 1
  {
    FilterAppend(ns, [x], IsUnread);
    assert [x][1..] == [];
  }

  /** The unread positions of a non-empty inbox are those of all but its last entry, plus the last if unread. */
  lemma UnreadPositionsSnoc(ns: seq<Notification>)
    requires ns != []
    ensures var m := |ns| - 1;
            |set i | 0 <= i < |ns| && !ns[i].read|
            == |set i | 0 <= i < m && !ns[..m][i].read| + if ns[m].read then 0 else 1
  {
    var m := |ns| - 1;
    var s0 := set i | 0 <= i < m && !ns[..m][i].read;
    var s := set i | 0 <= i < |ns| && !ns[i].read;
    if ns[m].read {
      assert s == s0;
    } else {
      assert s == s0 + {m};
    }
  }

  /** The unread filter comes out empty exactly when every entry is read. */
  lemma NoneUnreadIffAllRead(ns: seq<Notification>)
    ensures Unread(ns) == [] <==> forall i :: 0 <= i < |ns| ==> ns[i].read
  {
    var unread := Unread(ns);
    if unread != [] {
      assert !unread[0].read && unread[0] in ns;
    }
  }

  /**
   * `markAsRead(id)`: every entry with that id becomes read; nothing else
   * about any entry, and not the order, changes.
   */
  function MarkRead(ns: seq<Notification>, id: string): (r: seq<Notification>)
    ensures |r| == |ns|
    ensures forall i :: 0 <= i < |ns| ==> r[i].(read := ns[i].read) == ns[i]
    ensures forall i :: 0 <= i < |ns| ==> r[i].read == (ns[i].read || ns[i].id == id)
  {
    seq(|ns|, i requires 0 <= i < |ns| => if ns[i].id == id then ns[i].(read := true) else ns[i])
  }

  /** Marking an id that no notification carries changes nothing. */
  lemma MarkReadUnknownId(ns: seq<Notification>, id: string)
    requires forall i :: 0 <= i < |ns| ==> ns[i].id != id
    ensures MarkRead(ns, id) == ns
  {
  }

  /** Marking the same id twice is the same as marking it once. */
  lemma MarkReadIdempotent(ns: seq<Notification>, id: string)
    ensures MarkRead(MarkRead(ns, id), id) == MarkRead(ns, id)
  {
  }

  /** Marking a notification read removes exactly the unread entries with that id from the count. */
  lemma {:induction false} MarkReadUnreadCount(ns: seq<Notification>, id: string)
    ensures UnreadCount(MarkRead(ns, id))
            == UnreadCount(ns) - |Filter(ns, (x: Notification) => !x.read && x.id == id)|
    decreases |ns|
  {
    if ns != [] {
      MarkReadUnreadCount(ns[1..], id);
      assert MarkRead(ns, id)[1..] == MarkRead(ns[1..], id);
    }
  }

  /** `markAllAsRead`: every entry becomes read and nothing else changes. */
  function MarkAll(ns: seq<Notification>): (r: seq<Notification>)
    ensures |r| == |ns|
    ensures forall i :: 0 <= i < |ns| ==> r[i].read && r[i].(read := ns[i].read) == ns[i]
    ensures UnreadCount(r) == 0
  {
    seq(|ns|, i requires 0 <= i < |ns| => ns[i].(read := true))
  }

  /**
   * The top bar's state: the search box, its focus, the lists it searches and
   * the notification inbox.
   */
  class TopBar {
    var searchQuery: string
    var isFocused: bool
    var showNotifications: bool
    var companiesList: seq<Company>
    var documentsList: seq<Document>
    var notificationsList: seq<Notification>

    /** The initial state: empty query, no focus, the seed lists and the seed notifications. */
    constructor ()
      ensures searchQuery == "" && !isFocused && !showNotifications
      ensures companiesList == SeedCompanies && documentsList == SeedDocuments
      ensures notificationsList == SeedNotifications
    {
      searchQuery := "";
      isFocused := false;
      showNotifications := false;
      companiesList := SeedCompanies;
      documentsList := SeedDocuments;
      notificationsList := SeedNotifications;
    }

    /** The mount effect: both searched lists are replaced by what the stores load. */
    method LoadPersisted(companyStorage: Reconcile.LocalStorage?<Company>,
                         documentStorage: Reconcile.LocalStorage?<Document>)
      requires (companyStorage == null) == (documentStorage == null)
      modifies this
      ensures companyStorage == null || companyStorage.Read(CompanyStore.StorageKey).None? ==>
                companiesList == SeedCompanies
      ensures companyStorage != null && companyStorage.Read(CompanyStore.StorageKey).Some? ==>
                companiesList == Reconcile.Merge(companyStorage.Read(CompanyStore.StorageKey).value,
                                                 SeedCompanies, CompanyId)
      ensures documentStorage == null || documentStorage.Read(DocumentStore.StorageKey).None? ==>
                documentsList == SeedDocuments
      ensures documentStorage != null && documentStorage.Read(DocumentStore.StorageKey).Some? ==>
                documentsList == Reconcile.Merge(documentStorage.Read(DocumentStore.StorageKey).value,
                                                 SeedDocuments, DocumentId)
      ensures searchQuery == old(searchQuery) && isFocused == old(isFocused)
      ensures showNotifications == old(showNotifications) && notificationsList == old(notificationsList)
    {
      companiesList := CompanyStore.GetPersistedCompanies(companyStorage);
      documentsList := DocumentStore.GetPersistedDocuments(documentStorage);
    }

    /** Typing in the search box. */
    method SetSearchQuery(query: string)
      modifies this
      ensures searchQuery == query
      ensures isFocused == old(isFocused) && showNotifications == old(showNotifications)
      ensures companiesList == old(companiesList) && documentsList == old(documentsList)
      ensures notificationsList == old(notificationsList)
    {
      searchQuery := query;
    }

    /** The search box gains focus. */
    method Focus()
      modifies this
      ensures isFocused && searchQuery == old(searchQuery) && showNotifications == old(showNotifications)
      ensures companiesList == old(companiesList) && documentsList == old(documentsList)
      ensures notificationsList == old(notificationsList)
    {
      isFocused := true;
    }

    /** `handleNavigate`: choosing a result clears the query and the focus, which closes the dropdown. */
    method HandleNavigate(path: string)
      modifies this
      ensures searchQuery == "" && !isFocused
      ensures !ShowDropdown(isFocused, searchQuery)
      ensures showNotifications == old(showNotifications)
      ensures companiesList == old(companiesList) && documentsList == old(documentsList)
      ensures notificationsList == old(notificationsList)
    {
      searchQuery := "";
      isFocused := false;
    }

    /** `markAsRead`: the inbox with that id's entries read; the unread count cannot grow. */
    method MarkAsRead(id: string)
      modifies this
      ensures notificationsList == MarkRead(old(notificationsList), id)
      ensures UnreadCount(notificationsList) <= UnreadCount(old(notificationsList))
      ensures searchQuery == old(searchQuery) && isFocused == old(isFocused)
      ensures showNotifications == old(showNotifications)
      ensures companiesList == old(companiesList) && documentsList == old(documentsList)
    {
      MarkReadUnreadCount(notificationsList, id);
      notificationsList := MarkRead(notificationsList, id);
    }

    /** `markAllAsRead`: same length, every entry read, nothing unread. */
    method MarkAllAsRead()
      modifies this
      ensures notificationsList == MarkAll(old(notificationsList))
      ensures |notificationsList| == |old(notificationsList)| && UnreadCount(notificationsList) == 0
      ensures searchQuery == old(searchQuery) && isFocused == old(isFocused)
      ensures showNotifications == old(showNotifications)
      ensures companiesList == old(companiesList) && documentsList == old(documentsList)
    {
      notificationsList := MarkAll(notificationsList);
    }

    /** `clearAll`: the inbox is emptied, so nothing is unread. */
    method ClearAll()
      modifies this
      ensures notificationsList == [] && UnreadCount(notificationsList) == 0
      ensures searchQuery == old(searchQuery) && isFocused == old(isFocused)
      ensures showNotifications == old(showNotifications)
      ensures companiesList == old(companiesList) && documentsList == old(documentsList)
    {
      notificationsList := [];
    }
  }
}
