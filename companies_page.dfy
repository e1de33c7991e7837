/**
 * The companies page: the add-company form with its field-error map, the
 * insertion of a new company at the head of the list, the name/sector filter,
 * the derived sector tabs and the save-on-change effect.
 */
module CompaniesPage {
  import opened Wrappers
  import opened Data
  import opened Text
  import opened Seqs
  import Reconcile
  import CompanyStore

  /** The sectors the form offers; the first is preselected. */
  const SectorOptions: seq<string> :=
    ["Conglomerate", "Banking", "Automotive", "IT Services", "NBFC", "FMCG", "Pharma", "Energy", "Telecom", "Real Estate"]

  datatype CompanyForm = CompanyForm(name: string, sector: string, revenue: string, trend: Trend)

  /** The form as the page opens it and as a successful add leaves it. */
  const EmptyForm: CompanyForm := CompanyForm("", SectorOptions[0], "", Up)

  const NameRequired: string := "Company name is required"
  const NameExists: string := "Company already exists"
  const RevenueRequired: string := "Revenue is required"

  /** `c`'s lower-cased name equals the trimmed, lower-cased `name`. */
  predicate SameName(c: Company, name: string) {
    Lower(c.name) == Lower(Trim(name))
  }

  /** Some listed company has the same name as `name`, ignoring case and surrounding white space in `name`. */
  predicate NameTaken(companies: seq<Company>, name: string) {
    exists i | 0 <= i < |companies| :: SameName(companies[i], name)
  }

  /** What the form must satisfy to be accepted against `companies`. */
  predicate Acceptable(form: CompanyForm, companies: seq<Company>) {
    Trim(form.name) != [] && !NameTaken(companies, form.name) && Trim(form.revenue) != []
  }

  /**
   * `validateForm`'s error map. The name entry is present when the trimmed name
   * is empty or already taken, and then says "already exists" whenever the name
   * is taken (that check runs second and overwrites); the revenue entry is
   * present exactly when the trimmed revenue is empty. No other key appears, and
   * the map has no keys exactly when the form is acceptable.
   */
  function ValidateCompany(form: CompanyForm, companies: seq<Company>): (errors: map<string, string>)
    ensures "name" in errors <==> Trim(form.name) == [] || NameTaken(companies, form.name)
    ensures "name" in errors ==>
              errors["name"] == (if NameTaken(companies, form.name) then NameExists else NameRequired)
    ensures "revenue" in errors <==> Trim(form.revenue) == []
    ensures "revenue" in errors ==> errors["revenue"] == RevenueRequired
    ensures errors.Keys <= {"name", "revenue"}
    ensures errors == map[] <==> Acceptable(form, companies)
  {
    var required := if Trim(form.name) == [] then map["name" := NameRequired] else map[];
    var named := if NameTaken(companies, form.name) then required["name" := NameExists] else required;
    var errors := if Trim(form.revenue) == [] then named["revenue" := RevenueRequired] else named;
    errors
  }

  /**
   * The company `handleAddCompany` builds from the form, a timestamp rendering
   * and today's date: an id no seed company carries, the name and revenue as
   * typed without surrounding white space, no documents yet.
   */
  function NewCompany(form: CompanyForm, stamp: string, today: string): (c: Company)
    ensures c.id == "user-" + stamp && !Reconcile.HasId(SeedCompanies, CompanyId, c.id)
    ensures TrimmedFrom(form.name, c.name)
    ensures TrimmedFrom(form.revenue, c.revenue)
    ensures c.sector == form.sector && c.trend == form.trend && c.docs == 0 && c.lastUpdated == today
  {
    CompanyStore.UserIdIsNotSeedId(stamp);
    TrimIsTrimmedFrom(form.name);
    TrimIsTrimmedFrom(form.revenue);
    Company("user-" + stamp, Trim(form.name), form.sector, 0, today, form.trend, Trim(form.revenue))
  }

  /** No two companies have names that are equal once lower-cased. */
  predicate DistinctNames(companies: seq<Company>) {
    forall i, j :: 0 <= i < j < |companies| ==> Lower(companies[i].name) != Lower(companies[j].name)
  }

  /** Submitting the same form again, right after it was added, fails with "Company already exists". */
  lemma RepeatedAddIsRejected(form: CompanyForm, companies: seq<Company>, stamp: string, today: string)
    ensures var errors := ValidateCompany(form, [NewCompany(form, stamp, today)] + companies);
            "name" in errors && errors["name"] == NameExists
  {
    var added := [NewCompany(form, stamp, today)] + companies;
    assert Lower(added[0].name) == Lower(Trim(form.name));
  }

  /** Prepending a company whose name differs, lower-cased, from every listed name keeps the names distinct. */
  lemma PrependKeepsNamesDistinct(companies: seq<Company>, c: Company)
    requires DistinctNames(companies)
    requires forall k :: 0 <= k < |companies| ==> Lower(companies[k].name) != Lower(c.name)
    ensures DistinctNames([c] + companies)
  {
    var added := [c] + companies;
    assert forall k :: 0 < k < |added| ==> added[k] == companies[k - 1];
  }

  /** Accepting only forms that pass validation keeps the names of the list distinct under lower-casing. */
  lemma AddKeepsNamesDistinct(form: CompanyForm, companies: seq<Company>, stamp: string, today: string)
    requires DistinctNames(companies)
    requires Acceptable(form, companies)
    ensures DistinctNames([NewCompany(form, stamp, today)] + companies)
  {
    PrependKeepsNamesDistinct(companies, NewCompany(form, stamp, today));
  }

  /**
   * A new company carries a `user-` id, which no seed company has, so saving the
   * list with it prepended stores it in front of what would have been stored.
   */
  lemma AddedCompanyIsSaved(form: CompanyForm, companies: seq<Company>, stamp: string, today: string)
    ensures Reconcile.UserAdded([NewCompany(form, stamp, today)] + companies, SeedCompanies, CompanyId)
            == [NewCompany(form, stamp, today)] + Reconcile.UserAdded(companies, SeedCompanies, CompanyId)
  {
    CompanyStore.UserIdIsNotSeedId(stamp);
    Reconcile.UserAddedPrepend(NewCompany(form, stamp, today), companies, SeedCompanies, CompanyId);
  }

  /** A company is shown when its lower-cased name contains the lower-cased search and its sector is the selected one, or "All" is selected. */
  predicate Shown(c: Company, search: string, selectedSector: string) {
    Contains(Lower(c.name), Lower(search)) && (selectedSector == "All" || c.sector == selectedSector)
  }

  function ShownFilter(search: string, selectedSector: string): Company -> bool {
    c => Shown(c, search, selectedSector)
  }

  /** `filtered`: exactly the shown companies, in list order, each as many times as it is listed. */
  function FilterCompanies(companies: seq<Company>, search: string, selectedSector: string): (r: seq<Company>)
    ensures IsSubsequence(r, companies)
    ensures forall i :: 0 <= i < |r| ==> Shown(r[i], search, selectedSector)
    ensures forall j :: 0 <= j < |companies| && Shown(companies[j], search, selectedSector) ==> companies[j] in r
    ensures multiset(r) <= multiset(companies)
    ensures forall c :: c in companies ==>
              multiset(r)[c] == if Shown(c, search, selectedSector) then multiset(companies)[c] else 0
  {
    FilterIsSubsequence(companies, ShownFilter(search, selectedSector));
    FilterCount(companies, ShownFilter(search, selectedSector));
    Filter(companies, ShownFilter(search, selectedSector))
  }

  /** With an empty search and "All" selected, the whole list is shown. */
  lemma EverythingShownByDefault(companies: seq<Company>)
    ensures FilterCompanies(companies, "", "All") == companies
  {
    forall i | 0 <= i < |companies| ensures ShownFilter("", "All")(companies[i]) {
      ContainsEmpty(Lower(companies[i].name));
    }
    FilterKeepsAll(companies, ShownFilter("", "All"));
  }

  /** Each company's sector, in list order. */
  function SectorsOf(companies: seq<Company>): (r: seq<string>)
    ensures |r| == |companies| && forall i :: 0 <= i < |r| ==> r[i] == companies[i].sector
  {
    seq(|companies|, i requires 0 <= i < |companies| => companies[i].sector)
  }

  /**
   * Iterating `xs` into a set that already holds `seen`: the values not seen
   * before, each once, in the order they first appear.
   */
  function Unseen(xs: seq<string>, seen: set<string>): (r: seq<string>)
    ensures IsSubsequence(r, xs)
    ensures forall i :: 0 <= i < |r| ==> r[i] !in seen
    ensures forall i, j :: 0 <= i < j < |r| ==> r[i] != r[j]
    ensures forall i :: 0 <= i < |xs| ==> xs[i] in seen || xs[i] in r
  {
    if xs == [] then []
    else if xs[0] in seen then
      var r := Unseen(xs[1..], seen);
      assert r != [] ==> r[0] != xs[0];
      r
    else
      var rest := Unseen(xs[1..], seen + {xs[0]});
      var r := [xs[0]] + rest;
      assert r[1..] == rest;
      r
  }

  /** Each value of `r` appears in `xs` before every occurrence of any later value of `r`. */
  predicate OrderedByFirst(r: seq<string>, xs: seq<string>) {
    forall i, j, k :: 0 <= i < j < |r| && 0 <= k < |xs| && xs[k] == r[j] ==> r[i] in xs[..k]
  }

  /** The unseen values come out in the order of their first appearance in `xs`. */
  lemma {:induction false} UnseenFirstOccurrenceOrder(xs: seq<string>, seen: set<string>)
    ensures OrderedByFirst(Unseen(xs, seen), xs)
    decreases |xs|
  {
    if xs != [] {
      assert xs == [xs[0]] + xs[1..];
      if xs[0] in seen {
        UnseenFirstOccurrenceOrder(xs[1..], seen);
        OrderedPastSkipped(xs[0], Unseen(xs[1..], seen), xs[1..]);
      } else {
        UnseenFirstOccurrenceOrder(xs[1..], seen + {xs[0]});
        OrderedPastTaken(xs[0], Unseen(xs[1..], seen + {xs[0]}), xs[1..]);
      }
    }
  }

  /** Skipping a leading value that `r` does not hold keeps the order. */
  lemma OrderedPastSkipped(x: string, r: seq<string>, tail: seq<string>)
    requires OrderedByFirst(r, tail)
    requires forall i :: 0 <= i < |r| ==> r[i] != x
    ensures OrderedByFirst(r, [x] + tail)
  {
    var xs := [x] + tail;
    forall i, j, k | 0 <= i < j < |r| && 0 <= k < |xs| && xs[k] == r[j]
      ensures r[i] in xs[..k]
    {
      assert k != 0 && tail[k - 1] == r[j];
      assert r[i] in tail[..k - 1];
      assert tail[..k - 1] == xs[1..k];
    }
  }

  /** Taking a leading value that the rest does not hold keeps the order. */
  lemma OrderedPastTaken(x: string, rest: seq<string>, tail: seq<string>)
    requires OrderedByFirst(rest, tail)
    requires forall i :: 0 <= i < |rest| ==> rest[i] != x
    ensures OrderedByFirst([x] + rest, [x] + tail)
  {
    var r := [x] + rest;
    var xs := [x] + tail;
    forall i, j, k | 0 <= i < j < |r| && 0 <= k < |xs| && xs[k] == r[j]
      ensures r[i] in xs[..k]
    {
      assert r[j] == rest[j - 1];
      assert k != 0;
      if i == 0 {
        assert xs[..k][0] == x;
      } else {
        assert tail[k - 1] == rest[j - 1];
        assert rest[i - 1] in tail[..k - 1];
        assert tail[..k - 1] == xs[1..k];
      }
    }
  }

  /**
   * `sectors`: "All", then every sector of the list once, in the order of first
   * occurrence (the iteration order of a JavaScript `Set`).
   */
  function Sectors(companies: seq<Company>): (r: seq<string>)
    ensures |r| >= 1 && r[0] == "All"
    ensures IsSubsequence(r[1..], SectorsOf(companies))
    ensures forall i, j :: 1 <= i < j < |r| ==> r[i] != r[j]
    ensures forall j :: 0 <= j < |companies| ==> companies[j].sector in r[1..]
    ensures OrderedByFirst(r[1..], SectorsOf(companies))
  {
    var distinct := Unseen(SectorsOf(companies), {});
    UnseenFirstOccurrenceOrder(SectorsOf(companies), {});
    var r := ["All"] + distinct;
    assert r[1..] == distinct;
    r
  }

  /** The state of the companies page. */
  class CompaniesPage {
    var search: string
    var selectedSector: string
    var companiesList: seq<Company>
    var showAddModal: bool
    var loading: bool
    var form: CompanyForm
    var formErrors: map<string, string>

    /** The page as first rendered: loading, with an empty list and an empty form. */
    constructor ()
      ensures search == "" && selectedSector == "All" && companiesList == []
      ensures !showAddModal && loading && form == EmptyForm && formErrors == map[]
    {
      search := "";
      selectedSector := "All";
      companiesList := [];
      showAddModal := false;
      loading := true;
      form := EmptyForm;
      formErrors := map[];
    }

    /** The end of the mount effect's load: the list comes from the store and loading stops. */
    method FinishLoading(storage: Reconcile.LocalStorage?<Company>)
      modifies this
      ensures storage == null || storage.Read(CompanyStore.StorageKey).None? ==> companiesList == SeedCompanies
      ensures storage != null && storage.Read(CompanyStore.StorageKey).Some? ==>
                companiesList == Reconcile.Merge(storage.Read(CompanyStore.StorageKey).value, SeedCompanies, CompanyId)
      ensures !loading
      ensures search == old(search) && selectedSector == old(selectedSector) && showAddModal == old(showAddModal)
      ensures form == old(form) && formErrors == old(formErrors)
    {
      companiesList := CompanyStore.GetPersistedCompanies(storage);
      loading := false;
    }

    /** The save-on-change effect: the list is saved unless it is empty, in which case storage is left alone. */
    method PersistEffect(storage: Reconcile.LocalStorage?<Company>)
      modifies storage
      ensures storage != null && |companiesList| > 0 ==>
                storage.slots == old(storage.slots)[CompanyStore.StorageKey :=
                  Some(Reconcile.UserAdded(companiesList, SeedCompanies, CompanyId))]
      ensures storage != null && |companiesList| == 0 ==> storage.slots == old(storage.slots)
    {
      if |companiesList| > 0 {
        CompanyStore.SaveUserCompanies(storage, companiesList);
      }
    }

    /** Typing a name: the form takes it and the name error is blanked (its key stays). */
    method EditName(name: string)
      modifies this
      ensures form == old(form).(name := name) && formErrors == old(formErrors)["name" := ""]
      ensures search == old(search) && selectedSector == old(selectedSector) && companiesList == old(companiesList)
      ensures showAddModal == old(showAddModal) && loading == old(loading)
    {
      form := form.(name := name);
      formErrors := formErrors["name" := ""];
    }

    /** Typing a revenue: the form takes it and the revenue error is blanked (its key stays). */
    method EditRevenue(revenue: string)
      modifies this
      ensures form == old(form).(revenue := revenue) && formErrors == old(formErrors)["revenue" := ""]
      ensures search == old(search) && selectedSector == old(selectedSector) && companiesList == old(companiesList)
      ensures showAddModal == old(showAddModal) && loading == old(loading)
    {
      form := form.(revenue := revenue);
      formErrors := formErrors["revenue" := ""];
    }

    /** `validateForm`: records the error map and reports whether the form is acceptable. */
    method ValidateForm() returns (ok: bool)
      modifies this
      ensures ok <==> Acceptable(form, companiesList)
      ensures formErrors == ValidateCompany(form, companiesList)
      ensures search == old(search) && selectedSector == old(selectedSector) && companiesList == old(companiesList)
      ensures showAddModal == old(showAddModal) && loading == old(loading) && form == old(form)
    {
      formErrors := ValidateCompany(form, companiesList);
      ok := formErrors == map[];
    }

    /**
     * `handleAddCompany`: on a rejected form only the error map changes; on an
     * accepted one the new company goes in front of the unchanged list, the form
     * is reset, the errors are cleared and the modal closes.
     */
    method HandleAddCompany(stamp: string, today: string) returns (added: bool)
      modifies this
      ensures added <==> Acceptable(old(form), old(companiesList))
      ensures !added ==> companiesList == old(companiesList) && form == old(form)
                         && formErrors == ValidateCompany(old(form), old(companiesList))
                         && showAddModal == old(showAddModal)
      ensures added ==> companiesList == [NewCompany(old(form), stamp, today)] + old(companiesList)
                        && form == EmptyForm && formErrors == map[] && !showAddModal
      ensures search == old(search) && selectedSector == old(selectedSector) && loading == old(loading)
    {
      added := ValidateForm();
      if !added {
        return;
      }
      companiesList := [NewCompany(form, stamp, today)] + companiesList;
      form := EmptyForm;
      formErrors := map[];
      showAddModal := false;
    }
  }
}
