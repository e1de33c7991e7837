# Money Stories Finserve research platform — a verified model of its client-side logic

This project is a Dafny model of the browser-side logic of the research platform
dashboard. It covers the following parts:

- **Company and document stores.** Each store merges the user-added entries kept
  in the browser's local storage with the built-in seed list. It also writes back
  only the user-added entries.
- **Top bar.** Its omnisearch gives at most five companies and five documents per
  query. Its notification inbox can mark one entry read, mark all read, or clear.
- **Companies page.** It has a search and sector filter, a sector list with
  duplicates removed, and an "add company" form. The form validates the name,
  rejects duplicates and validates the revenue. The page writes the list back to
  storage whenever the list is non-empty.
- **Documents page.** A file gate accepts PDFs only. An upload form validates its
  input and prepends a document in "processing" state. A later completion event
  marks that document "indexed". The page has a title/company search, status
  tabs, and the same save-on-change effect.
- **Saved-insights page.** It searches a fixed list of seven insights.

## Module layout

- `Text` holds the ECMAScript string built-ins these views use:
  - `toLowerCase` (ASCII letters only);
  - `includes`;
  - `trim`, with the full ECMAScript white-space and line-terminator set;
  - `indexOf`;
  - `replace` with a string pattern, which replaces the first occurrence only.
- `Seqs` holds `filter` and `slice(0, n)`, plus the order-preserving subsequence
  relation.
- `Data` holds the entity records and the seed lists.
- `Reconcile` holds the merge and "user-added" computations, proved for any id
  function, and `LocalStorage`, a class holding typed slots. The browser has
  one `localStorage` holding both keys; the model gives each entity kind its own
  `LocalStorage` object, and since each store touches only its own key no
  property depends on the split.
- `CompanyStore`, `DocumentStore`, `Layout` (the top bar), `CompaniesPage`,
  `DocumentsPage` and `SavedPage` follow the source files one for one.
- React components whose state changes over time become classes. Their fields
  are the `useState` variables and their methods are the event handlers and
  effects.
- Derived values (`filtered`, `sectors`, `matchedCompanies`, `unreadCount`, …)
  become functions of those fields.

Local storage is modelled as a map from key to an optional typed list. The
following all read as `None`:

- a missing key;
- an empty value;
- a value `JSON.parse` rejects;
- any other value the `catch` path swallows.

A missing browser window is a `null` storage reference.

## Model

| member | source | states |
|---|---|---|
| Reconcile.Merge | src/lib/companyStore.ts:12-17 | the stored entries come first and unchanged; then an ordered selection of seed entries, none sharing an id with a stored entry, and every seed entry whose id is not stored is present |
| Reconcile.UserAdded | src/lib/companyStore.ts:32-34 | an ordered selection of the list that keeps every entry whose id is not a seed id as many times as it occurs, and no other entry |
| Reconcile.MergeNothing | src/lib/companyStore.ts:12-17 | merging an empty stored list yields the seed list |
| Reconcile.SaveAfterLoad | src/lib/companyStore.ts:12-17 | when no stored entry carries a seed id, saving what was loaded writes back exactly the stored list |
| Reconcile.SaveLoadSave | src/lib/companyStore.ts:27-42 | save, reload and save again writes the same value as the first save |
| Reconcile.UserAddedPrepend | src/lib/companyStore.ts:32-34 | an entry with a non-seed id put in front is saved in front of what the rest saves |
| Reconcile.MergeIdempotent | src/lib/companyStore.ts:12-17 | merging the seed into an already merged list adds nothing |
| Reconcile.FilterKeepsDistinctIds | src/lib/companyStore.ts:14-16 | filtering a list whose ids are distinct leaves distinct ids |
| Reconcile.MergeDistinctIds | src/lib/companyStore.ts:12-17 | when the stored list and the seed each repeat no id, the merged list repeats none |
| Reconcile.HasIdIsMember | src/lib/companyStore.ts:15 | the `some(... id === ...)` test holds exactly when the id is in the list's id set |
| Reconcile.SurvivorCount | src/lib/companyStore.ts:14-16 | with distinct seed ids, the seed entries kept number as many as the seed ids not stored |
| Reconcile.MergeSize | src/lib/companyStore.ts:12-17 | the merged length is the stored length plus the number of seed ids not stored |
| Reconcile.LocalStorage.Write | src/lib/companyStore.ts:35-38 | `setItem` replaces the one slot and a later read returns the written list |
| Reconcile.Load | src/lib/companyStore.ts:4-25 | without a window, or with nothing usable stored, the seed list; otherwise the merge of the stored list |
| Reconcile.Save | src/lib/companyStore.ts:27-42 | without a window nothing changes; otherwise only the key's slot is replaced, by the user-added entries |
| Reconcile.ReloadAndSave | src/lib/companyStore.ts:4-42 | when a list is stored under the key and none of its entries carries a seed id, loading and then saving at once leaves the storage exactly as it was |
| CompanyStore.GetPersistedCompanies | src/lib/companyStore.ts:4-25 | seed companies without a window (line 5) or without usable stored data (lines 20-24); otherwise stored companies then the seed companies with unstored ids |
| CompanyStore.SaveUserCompanies | src/lib/companyStore.ts:27-42 | only "research-platform-companies" changes, to the companies with non-seed ids, in order |
| CompanyStore.UserIdIsNotSeedId | src/app/companies/page.tsx:88 | a `user-` id never equals a seed company id |
| CompanyStore.LoadedCompanies | src/lib/companyStore.ts:12-17 | the loaded list has the stored length plus one per unstored seed id, and repeats no id when the stored list repeats none |
| CompanyStore.ReloadAndSave | src/lib/companyStore.ts:4-42 | when companies are stored and none carries a seed id, reloading and saving them leaves the storage unchanged |
| DocumentStore.GetPersistedDocuments | src/lib/documentStore.ts:4-25 | seed documents without a window or usable stored data; otherwise stored documents then the seed documents with unstored ids |
| DocumentStore.SaveUserDocuments | src/lib/documentStore.ts:27-42 | only "research-platform-documents" changes, to the documents with non-seed ids, in order |
| DocumentStore.UserIdIsNotSeedId | src/app/documents/page.tsx:108 | a `user-` id never equals a seed document id |
| DocumentStore.LoadedDocuments | src/lib/documentStore.ts:12-17 | the loaded list has the stored length plus one per unstored seed id, and repeats no id when the stored list repeats none |
| DocumentStore.ReloadAndSave | src/lib/documentStore.ts:4-42 | when documents are stored and none carries a seed id, reloading and saving them leaves the storage unchanged |
| Data.SeedIdsAreDistinctDigits | src/lib/data.ts:3-151 | seed company ids and seed document ids are single digits, pairwise distinct |
| Layout.MatchedCompanies | src/components/layout.tsx:103-108 | empty for a blank trimmed query; otherwise a prefix of the companies whose lower-cased name or sector contains the lower-cased untrimmed query, in order, whose length is five or the number of matches when fewer |
| Layout.MatchedDocuments | src/components/layout.tsx:110-116 | as for companies, matching title, company or type, with the same prefix and length |
| Layout.HasResults | src/components/layout.tsx:118 | true exactly when the query is not blank and some company or document matches |
| Layout.ShowDropdown | src/components/layout.tsx:93 | the dropdown shows exactly when the input has focus and the query holds a character other than white space |
| Layout.ResultTotalAtMostTen | src/components/layout.tsx:275 | the results footer never counts more than ten |
| Layout.FullGroups | src/components/layout.tsx:103-116 | a group holds exactly five when at least five entries match |
| Layout.AllMatchingGivesFirstFive | src/components/layout.tsx:103-116 | when every entry matches, each group is the list's first five |
| Layout.HdfcMatchesBank | src/components/layout.tsx:103-108 | "HDFC Bank" matches the query "bank" |
| Layout.InfosysMissesBank | src/components/layout.tsx:103-108 | "Infosys" (IT Services) does not match "bank" |
| Layout.SbiMatchesBank | src/components/layout.tsx:103-108 | "SBI" matches "bank" through its sector |
| Layout.SbiMissesSpacedBank | src/components/layout.tsx:103-108 | "SBI" does not match " bank": the query is trimmed only for the blank test |
| Layout.BankQueryExample | src/components/layout.tsx:103-108 | "bank" over HDFC Bank and Infosys yields HDFC Bank alone |
| Layout.UntrimmedQueryExample | src/components/layout.tsx:103-108 | " bank" is not blank yet finds nothing where "bank" finds SBI |
| Layout.UnreadCount | src/components/layout.tsx:94 | the number of inbox positions holding an unread notification; at most the inbox size, and zero exactly when every notification is read |
| Layout.UnreadIndexCount | src/components/layout.tsx:94 | the unread filter keeps one entry per unread position of the inbox |
| Layout.NoneUnreadIffAllRead | src/components/layout.tsx:94 | the unread filter is empty exactly when every notification is read |
| Layout.MarkRead | src/components/layout.tsx:157-161 | same length; only the `read` flag may change, and it becomes true exactly for the entries carrying the id |
| Layout.MarkReadUnknownId | src/components/layout.tsx:157-161 | an id in no notification changes nothing |
| Layout.MarkReadIdempotent | src/components/layout.tsx:157-161 | marking the same id twice equals marking it once |
| Layout.MarkReadUnreadCount | src/components/layout.tsx:157-161 | the unread count drops by the number of unread entries carrying the id |
| Layout.MarkAll | src/components/layout.tsx:163-165 | same length, every entry read, nothing else changed, unread count zero |
| Layout.TopBar.constructor | src/components/layout.tsx:82-87 | empty query, unfocused, inbox closed, seed companies, documents and notifications |
| Layout.TopBar.LoadPersisted | src/components/layout.tsx:97-100 | with one window serving both stores, the lists become what the two stores return; nothing else changes |
| Layout.TopBar.SetSearchQuery | src/components/layout.tsx:183 | only the query changes |
| Layout.TopBar.Focus | src/components/layout.tsx:184 | only the focus flag changes |
| Layout.TopBar.HandleNavigate | src/components/layout.tsx:151-155 | the query is cleared and focus dropped, so the dropdown is hidden |
| Layout.TopBar.MarkAsRead | src/components/layout.tsx:157-161 | the inbox becomes `MarkRead` of the old inbox and the unread count does not grow |
| Layout.TopBar.MarkAllAsRead | src/components/layout.tsx:163-165 | the inbox keeps its length with nothing unread |
| Layout.TopBar.ClearAll | src/components/layout.tsx:167-169 | the inbox is emptied |
| CompaniesPage.ValidateCompany | src/app/companies/page.tsx:74-82 | a name error exactly when the trimmed name is blank or a listed name equals it ignoring case, with "Company already exists" winning; a revenue error exactly when the trimmed revenue is blank; no other key; no errors exactly when acceptable |
| CompaniesPage.NewCompany | src/app/companies/page.tsx:87-95 | the id is "user-" followed by the timestamp, and no seed company carries it; the name and revenue are the typed ones with only the white space at their two ends removed; the chosen sector and trend, no documents, today's date |
| Text.TrimIsTrimmedFrom | src/app/companies/page.tsx:89 | `trim` removes the white space at the two ends of a string and nothing else |
| Text.TrimmedFromUnique | src/app/companies/page.tsx:94 | a piece of a string with only white space around it and none at its own ends is that string's `trim` |
| CompaniesPage.RepeatedAddIsRejected | src/app/companies/page.tsx:77-78 | submitting the same form right after it was added fails with "Company already exists" |
| CompaniesPage.PrependKeepsNamesDistinct | src/app/companies/page.tsx:97 | prepending a company with a new lower-cased name keeps names distinct |
| CompaniesPage.AddKeepsNamesDistinct | src/app/companies/page.tsx:84-101 | adding only validated forms keeps the list's names distinct ignoring case |
| CompaniesPage.AddedCompanyIsSaved | src/app/companies/page.tsx:52-56 | the next save stores the new company in front of what was stored before |
| CompaniesPage.FilterCompanies | src/app/companies/page.tsx:33-37 | an ordered selection of the list that keeps every company whose lower-cased name contains the lower-cased search and whose sector is the selected one (or "All" is selected) as many times as it is listed, and no other company |
| CompaniesPage.EverythingShownByDefault | src/app/companies/page.tsx:17-18 | with the initial search and sector every company is shown |
| CompaniesPage.SectorsOf | src/app/companies/page.tsx:31 | the sector of each company, in order |
| CompaniesPage.Unseen | src/app/companies/page.tsx:31 | an ordered selection of the values not already seen, each once, missing none |
| CompaniesPage.UnseenFirstOccurrenceOrder | src/app/companies/page.tsx:31 | the unseen values come out in the order of their first appearance, as a JavaScript `Set` iterates |
| CompaniesPage.Sectors | src/app/companies/page.tsx:31 | "All" first, then every company sector once, in the order of first appearance in the list |
| CompaniesPage.CompaniesPage.constructor | src/app/companies/page.tsx:17-28 | empty search, "All" sector, empty list, modal closed, loading, empty form without errors |
| CompaniesPage.CompaniesPage.FinishLoading | src/app/companies/page.tsx:40-49 | the list becomes what the store returns and loading ends |
| CompaniesPage.CompaniesPage.PersistEffect | src/app/companies/page.tsx:52-56 | a non-empty list is saved through the store; an empty list leaves storage alone |
| CompaniesPage.CompaniesPage.EditName | src/app/companies/page.tsx:282 | the form takes the name and the name error is blanked |
| CompaniesPage.CompaniesPage.EditRevenue | src/app/companies/page.tsx:314 | the form takes the revenue and the revenue error is blanked |
| CompaniesPage.CompaniesPage.ValidateForm | src/app/companies/page.tsx:74-82 | records `ValidateCompany`'s errors and reports whether there are none |
| CompaniesPage.CompaniesPage.HandleAddCompany | src/app/companies/page.tsx:84-101 | adds exactly when acceptable; then the trimmed company with a `user-` id is prepended, the form is reset and the modal closed; otherwise only the errors change |
| DocumentsPage.ValidateUpload | src/app/documents/page.tsx:95-101 | a file error exactly when no file is held, a company error exactly when the trimmed company is blank, no other key, no errors exactly when acceptable |
| DocumentsPage.TitleDropsExtension | src/app/documents/page.tsx:109 | a name that is a base without ".pdf" plus ".pdf" gets the base as title |
| DocumentsPage.TitleOf | src/app/documents/page.tsx:109 | a name in which ".pdf" does not occur is its own title; otherwise the title is four characters shorter |
| DocumentsPage.TitleKeepsTheRest | src/app/documents/page.tsx:109 | only the first ".pdf" is removed, wherever it occurs, and the rest is kept |
| DocumentsPage.NewDocument | src/app/documents/page.tsx:107-115 | the page count lies in 10..159 and the status is "processing" |
| DocumentsPage.MarkIndexed | src/app/documents/page.tsx:123-126 | same length; only the status may change, and it becomes "indexed" exactly for entries carrying the id |
| DocumentsPage.MarkIndexedAbsent | src/app/documents/page.tsx:123-126 | an id in no document changes nothing |
| DocumentsPage.MarkIndexedIdempotent | src/app/documents/page.tsx:123-126 | completing twice equals completing once |
| DocumentsPage.UploadThenComplete | src/app/documents/page.tsx:117-127 | completion turns exactly the uploaded document "indexed" and keeps the rest of the list |
| DocumentsPage.FilterDocuments | src/app/documents/page.tsx:29-33 | an ordered selection of the list that keeps every document whose lower-cased title or company contains the lower-cased search and whose status matches the tab ignoring case (or the tab is "All") as many times as it is listed, and no other document |
| DocumentsPage.TabsSelectStatus | src/app/documents/page.tsx:27-31 | each tab after "All" matches exactly one status, ignoring case |
| DocumentsPage.EverythingListedByDefault | src/app/documents/page.tsx:13-14 | with the initial search and tab every document is listed |
| DocumentsPage.DocumentsPage.constructor | src/app/documents/page.tsx:12-23 | loading, empty search, "All" tab, empty list, modal closed, no file, empty form without errors |
| DocumentsPage.DocumentsPage.FinishLoading | src/app/documents/page.tsx:38-46 | the list becomes what the store returns and loading ends |
| DocumentsPage.DocumentsPage.PersistEffect | src/app/documents/page.tsx:49-53 | a non-empty list is saved through the store; an empty list leaves storage alone |
| DocumentsPage.DocumentsPage.HandleFileChange | src/app/documents/page.tsx:75-86 | no file changes nothing; a PDF is held and its error blanked; anything else is refused with "Only PDF files are allowed" and the held file dropped |
| DocumentsPage.DocumentsPage.EditCompany | src/app/documents/page.tsx:443-446 | the form takes the company and the company error is blanked |
| DocumentsPage.DocumentsPage.ResetForm | src/app/documents/page.tsx:88-93 | no file, the empty form, no errors |
| DocumentsPage.DocumentsPage.CloseUploadModal | src/app/documents/page.tsx:55-73 | the modal closes and the form is reset |
| DocumentsPage.DocumentsPage.ValidateForm | src/app/documents/page.tsx:95-101 | records `ValidateUpload`'s errors and reports whether there are none |
| DocumentsPage.DocumentsPage.HandleUpload | src/app/documents/page.tsx:103-129 | uploads exactly when acceptable; then the new "processing" document is prepended, the modal closed, the form reset, and its id returned for the completion event; otherwise only the errors change |
| DocumentsPage.DocumentsPage.CompleteProcessing | src/app/documents/page.tsx:122-127 | the list becomes `MarkIndexed` of itself for that id |
| SavedPage.SavedInsightsLayout | src/app/saved/page.tsx:8-13 | seven insights: the four shared ones, then ids "5", "6", "7"; no two share an id |
| SavedPage.FilterInsights | src/app/saved/page.tsx:36-40 | exactly the insights whose lower-cased title or description contains the lower-cased search, in order, with no cap |
| SavedPage.EmptySearchShowsAll | src/app/saved/page.tsx:36-40 | the empty search shows all seven |
| SavedPage.SearchIsNotTrimmed | src/app/saved/page.tsx:36-40 | the search is matched as typed: " ev" misses a text that "ev" finds |

## Left out

- JSON parsing and the browser's `localStorage` are not modelled byte for byte.
  A stored value is a typed list, or `None` where parsing fails, the value is empty
  or the `catch` path is taken. `JSON.stringify` is the identity on the typed list.
  Entries whose fields are malformed but still parse are outside the model.
- Reconcile.Save: a `setItem` that throws is not modelled. The source catches it
  and the storage stays as it was. The model always writes. The `console.error`
  logging on both the load and the save failure paths is also left out.
- `toLowerCase` folds only the ASCII letters. The seed data and all examples are
  ASCII apart from the rupee sign, which has no case.
- Timers become explicit events, as follows:
  - the 800 ms loading delay is the `FinishLoading` call;
  - the 3 s processing timer is `CompleteProcessing` called with the id that
    `HandleUpload` returns.
- Interleavings of these events with other handlers are not modelled.
- `Date.now()`, today's date and `Math.random()` become parameters:
  - a timestamp string;
  - a date string;
  - a roll in 0..149, standing for `Math.floor(Math.random() * 150)`.
- DocumentsPage.NewDocument: the contract fixes only the page range and the
  status. The other fields are the record built at src/app/documents/page.tsx:107-115.
- Rendering, CSS and the loading skeletons are not modelled.
- The following DOM handling is not modelled:
  - the outside-click handlers and the Ctrl/Cmd+K shortcut in the top bar;
  - clearing the file input's DOM value.
- Every way the upload modal is closed (Escape, backdrop, close and cancel
  buttons) does the same thing, and `CloseUploadModal` is that one action. The
  companies page's Escape and backdrop handlers only set the modal flag.
- The following plain setters are field assignments with nothing to prove, so
  they are not separate methods:
  - the search, sector, tab and trend setters;
  - opening a modal;
  - the notification panel toggle;
  - the sector select on the companies form;
  - the document-type select on the upload form.
- The top bar's Escape handler is not a separate method. It drops the input's
  focus, closes the notification panel and blurs the input element.
- `router.push` in `handleNavigate` is not modelled. Only the state it resets is.
- The documents page's `selectedDocument` lookup and the detail panel are not
  modelled. The saved page's `collections` and its view switch are also out.
- The chat page, the dashboard charts, the ingestion jobs and the other pages are
  not part of this model.
- Properties of the seed literals that need every character of a long string
  examined are not stated, because they are too costly for the solver. For
  example, there is no proof that a given search misses every saved insight.
  Such properties are instead shown on small records (`SearchIsNotTrimmed`) or
  on single seed entries (`Layout.InfosysMissesBank`).
