/**
 * Persistence of the document list: the seed documents merged with the
 * user-uploaded documents stored under "research-platform-documents".
 */
module DocumentStore {
  import opened Wrappers
  import opened Data
  import Reconcile

  const StorageKey: string := "research-platform-documents"

  /**
   * `getPersistedDocuments`: the seed documents when there is no browser window
   * or nothing usable is stored; otherwise the stored documents followed by the
   * seed documents whose id none of them carries.
   */
  method GetPersistedDocuments(storage: Reconcile.LocalStorage?<Document>) returns (r: seq<Document>)
    ensures storage == null ==> r == SeedDocuments
    ensures storage != null && storage.Read(StorageKey) == None ==> r == SeedDocuments
    ensures storage != null && storage.Read(StorageKey).Some? ==>
              r == Reconcile.Merge(storage.Read(StorageKey).value, SeedDocuments, DocumentId)
  {
    r := Reconcile.Load(storage, StorageKey, SeedDocuments, DocumentId);
  }

  /**
   * `saveUserDocuments`: without a browser window nothing happens; otherwise the
   * documents of `all` whose id is not a seed id, in order, replace the stored value.
   */
  method SaveUserDocuments(storage: Reconcile.LocalStorage?<Document>, all: seq<Document>)
    modifies storage
    ensures storage != null ==>
              storage.slots == old(storage.slots)[StorageKey := Some(Reconcile.UserAdded(all, SeedDocuments, DocumentId))]
  {
    Reconcile.Save(storage, StorageKey, all, SeedDocuments, DocumentId);
  }

  /** An id minted for an uploaded document, `"user-" + suffix`, is never a seed document id. */
  lemma UserIdIsNotSeedId(suffix: string)
    ensures !Reconcile.HasId(SeedDocuments, DocumentId, "user-" + suffix)
  {
    SeedIdsAreDistinctDigits();
    forall i | 0 <= i < |SeedDocuments| ensures SeedDocuments[i].id != "user-" + suffix {
      assert |SeedDocuments[i].id| == 1;
    }
  }

  /**
   * The loaded list holds every stored document plus one seed document per seed id
   * the stored list does not carry, and it repeats no id when the stored list repeats none.
   */
  lemma LoadedDocuments(parsed: seq<Document>)
    ensures |Reconcile.Merge(parsed, SeedDocuments, DocumentId)|
            == |parsed| + |Reconcile.Ids(SeedDocuments, DocumentId) - Reconcile.Ids(parsed, DocumentId)|
    ensures Reconcile.DistinctIds(parsed, DocumentId) ==>
              Reconcile.DistinctIds(Reconcile.Merge(parsed, SeedDocuments, DocumentId), DocumentId)
  {
    SeedIdsAreDistinctDigits();
    Reconcile.MergeSize(parsed, SeedDocuments, DocumentId);
    if Reconcile.DistinctIds(parsed, DocumentId) {
      Reconcile.MergeDistinctIds(parsed, SeedDocuments, DocumentId);
    }
  }

  /**
   * Load followed by save, as the documents page does on mount: when no stored
   * document carries a seed id, the stored value comes back unchanged.
   */
  method ReloadAndSave(storage: Reconcile.LocalStorage<Document>) returns (loaded: seq<Document>)
    requires storage.Read(StorageKey).Some?
    requires forall i :: 0 <= i < |storage.Read(StorageKey).value| ==>
               !Reconcile.HasId(SeedDocuments, DocumentId, DocumentId(storage.Read(StorageKey).value[i]))
    modifies storage
    ensures storage.slots == old(storage.slots)
  {
    loaded := Reconcile.ReloadAndSave(storage, StorageKey, SeedDocuments, DocumentId);
  }
}
