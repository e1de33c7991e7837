/**
 * Persistence of the company list: the seed companies merged with the
 * user-added companies stored under "research-platform-companies".
 */
module CompanyStore {
  import opened Wrappers
  import opened Data
  import Reconcile

  const StorageKey: string := "research-platform-companies"

  /**
   * `getPersistedCompanies`: the seed companies when there is no browser window
   * or nothing usable is stored; otherwise the stored companies followed by the
   * seed companies whose id none of them carries.
   */
  method GetPersistedCompanies(storage: Reconcile.LocalStorage?<Company>) returns (r: seq<Company>)
    ensures storage == null ==> r == SeedCompanies
    ensures storage != null && storage.Read(StorageKey) == None ==> r == SeedCompanies
    ensures storage != null && storage.Read(StorageKey).Some? ==>
              r == Reconcile.Merge(storage.Read(StorageKey).value, SeedCompanies, CompanyId)
  {
    r := Reconcile.Load(storage, StorageKey, SeedCompanies, CompanyId);
  }

  /**
   * `saveUserCompanies`: without a browser window nothing happens; otherwise the
   * companies of `all` whose id is not a seed id, in order, replace the stored value.
   */
  method SaveUserCompanies(storage: Reconcile.LocalStorage?<Company>, all: seq<Company>)
    modifies storage
    ensures storage != null ==>
              storage.slots == old(storage.slots)[StorageKey := Some(Reconcile.UserAdded(all, SeedCompanies, CompanyId))]
  {
    Reconcile.Save(storage, StorageKey, all, SeedCompanies, CompanyId);
  }

  /** An id minted for a user-added company, `"user-" + suffix`, is never a seed company id. */
  lemma UserIdIsNotSeedId(suffix: string)
    ensures !Reconcile.HasId(SeedCompanies, CompanyId, "user-" + suffix)
  {
    SeedIdsAreDistinctDigits();
    forall i | 0 <= i < |SeedCompanies| ensures SeedCompanies[i].id != "user-" + suffix {
      assert |SeedCompanies[i].id| == 1;
    }
  }

  /**
   * The loaded list holds every stored company plus one seed company per seed id
   * the stored list does not carry, and it repeats no id when the stored list repeats none.
   */
  lemma LoadedCompanies(parsed: seq<Company>)
    ensures |Reconcile.Merge(parsed, SeedCompanies, CompanyId)|
            == |parsed| + |Reconcile.Ids(SeedCompanies, CompanyId) - Reconcile.Ids(parsed, CompanyId)|
    ensures Reconcile.DistinctIds(parsed, CompanyId) ==>
              Reconcile.DistinctIds(Reconcile.Merge(parsed, SeedCompanies, CompanyId), CompanyId)
  {
    SeedIdsAreDistinctDigits();
    Reconcile.MergeSize(parsed, SeedCompanies, CompanyId);
    if Reconcile.DistinctIds(parsed, CompanyId) {
      Reconcile.MergeDistinctIds(parsed, SeedCompanies, CompanyId);
    }
  }

  /**
   * Load followed by save, as the companies page does on mount: when no stored
   * company carries a seed id, the stored value comes back unchanged.
   */
  method ReloadAndSave(storage: Reconcile.LocalStorage<Company>) returns (loaded: seq<Company>)
    requires storage.Read(StorageKey).Some?
    requires forall i :: 0 <= i < |storage.Read(StorageKey).value| ==>
               !Reconcile.HasId(SeedCompanies, CompanyId, CompanyId(storage.Read(StorageKey).value[i]))
    modifies storage
    ensures storage.slots == old(storage.slots)
  {
    loaded := Reconcile.ReloadAndSave(storage, StorageKey, SeedCompanies, CompanyId);
  }
}
