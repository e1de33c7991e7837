/**
 * Reconciliation of a compiled-in seed collection with the user-added
 * collection kept in the browser's key-value storage, written once for any
 * entity that carries a string id. The company store and the document store
 * are the two instances.
 */
module Reconcile {
  import opened Wrappers
  import opened Seqs

  /** `xs.some((x) => x.id === id)`. */
  predicate HasId<T>(xs: seq<T>, idOf: T -> string, id: string) {
    exists i :: 0 <= i < |xs| && idOf(xs[i]) == id
  }

  /** The ids carried by `xs`. */
  ghost function Ids<T>(xs: seq<T>, idOf: T -> string): set<string> {
    set i | 0 <= i < |xs| :: idOf(xs[i])
  }

  /** No two entries of `xs` share an id. */
  ghost predicate DistinctIds<T>(xs: seq<T>, idOf: T -> string) {
    forall i, j :: 0 <= i < j < |xs| ==> idOf(xs[i]) != idOf(xs[j])
  }

  /** The filter predicate "no entry of `others` has my id". */
  function IdNotIn<T>(others: seq<T>, idOf: T -> string): T -> bool {
    x => !HasId(others, idOf, idOf(x))
  }

  /**
   * The merged collection the stores load: the parsed user entries, in stored
   * order, then each seed entry whose id none of them carries, in seed order.
   */
  function Merge<T(==)>(parsed: seq<T>, seed: seq<T>, idOf: T -> string): (r: seq<T>)
    ensures |parsed| <= |r| && r[..|parsed|] == parsed
    ensures IsSubsequence(r[|parsed|..], seed)
    ensures forall i :: |parsed| <= i < |r| ==> !HasId(parsed, idOf, idOf(r[i]))
    ensures forall j :: 0 <= j < |seed| && !HasId(parsed, idOf, idOf(seed[j])) ==> seed[j] in r[|parsed|..]
  {
    var kept := Filter(seed, IdNotIn(parsed, idOf));
    FilterIsSubsequence(seed, IdNotIn(parsed, idOf));
    assert (parsed + kept)[|parsed|..] == kept;
    parsed + kept
  }

  /**
   * The subset the stores save: the entries whose id is not a seed id, in
   * their order, each as many times as it occurs.
   */
  function UserAdded<T(==)>(all: seq<T>, seed: seq<T>, idOf: T -> string): (r: seq<T>)
    ensures IsSubsequence(r, all)
    ensures forall i :: 0 <= i < |r| ==> !HasId(seed, idOf, idOf(r[i]))
    ensures forall j :: 0 <= j < |all| && !HasId(seed, idOf, idOf(all[j])) ==> all[j] in r
    ensures multiset(r) <= multiset(all)
    ensures forall x :: x in all ==> multiset(r)[x] == if HasId(seed, idOf, idOf(x)) then 0 else multiset(all)[x]
  {
    FilterIsSubsequence(all, IdNotIn(seed, idOf));
    FilterCount(all, IdNotIn(seed, idOf));
    Filter(all, IdNotIn(seed, idOf))
  }

  /** An empty stored list loads as the seed collection itself. */
  lemma MergeNothing<T>(seed: seq<T>, idOf: T -> string)
    ensures Merge([], seed, idOf) == seed
  {
    FilterKeepsAll(seed, IdNotIn([], idOf));
  }

  /**
   * Round trip: when no stored entry carries a seed id, saving what was loaded
   * writes back exactly the stored list.
   */
  lemma SaveAfterLoad<T>(parsed: seq<T>, seed: seq<T>, idOf: T -> string)
    requires forall i :: 0 <= i < |parsed| ==> !HasId(seed, idOf, idOf(parsed[i]))
    ensures UserAdded(Merge(parsed, seed, idOf), seed, idOf) == parsed
  {
    var keep := IdNotIn(seed, idOf);
    var kept := Filter(seed, IdNotIn(parsed, idOf));
    FilterAppend(parsed, kept, keep);
    FilterKeepsAll(parsed, keep);
    forall i | 0 <= i < |kept| ensures !keep(kept[i]) {
      var j :| 0 <= j < |seed| && seed[j] == kept[i];
      assert idOf(seed[j]) == idOf(kept[i]);
    }
    FilterKeepsNone(kept, keep);
  }

  /**
   * Saving is stable through a reload: save `all`, load, save again, and the
   * second write equals the first.
   */
  lemma SaveLoadSave<T>(all: seq<T>, seed: seq<T>, idOf: T -> string)
    ensures var saved := UserAdded(all, seed, idOf);
            UserAdded(Merge(saved, seed, idOf), seed, idOf) == saved
  {
    SaveAfterLoad(UserAdded(all, seed, idOf), seed, idOf);
  }

  /** An entry with no seed id, put in front of a collection, is saved in front of what the collection saves. */
  lemma UserAddedPrepend<T>(x: T, rest: seq<T>, seed: seq<T>, idOf: T -> string)
    requires !HasId(seed, idOf, idOf(x))
    ensures UserAdded([x] + rest, seed, idOf) == [x] + UserAdded(rest, seed, idOf)
  {
    assert ([x] + rest)[1..] == rest;
  }

  /** Merging the seed into an already merged collection adds nothing. */
  lemma MergeIdempotent<T>(parsed: seq<T>, seed: seq<T>, idOf: T -> string)
    ensures Merge(Merge(parsed, seed, idOf), seed, idOf) == Merge(parsed, seed, idOf)
  {
    var m := Merge(parsed, seed, idOf);
    forall j | 0 <= j < |seed| ensures HasId(m, idOf, idOf(seed[j])) {
      if HasId(parsed, idOf, idOf(seed[j])) {
        var i :| 0 <= i < |parsed| && idOf(parsed[i]) == idOf(seed[j]);
        assert m[i] == parsed[i];
      } else {
        assert seed[j] in m[|parsed|..];
        var k :| 0 <= k < |m| - |parsed| && m[|parsed|..][k] == seed[j];
        assert m[|parsed| + k] == seed[j];
      }
    }
    FilterKeepsNone(seed, IdNotIn(m, idOf));
  }

  /** Filtering never introduces two entries with the same id. */
  lemma {:induction false} FilterKeepsDistinctIds<T>(xs: seq<T>, p: T -> bool, idOf: T -> string)
    requires DistinctIds(xs, idOf)
    ensures DistinctIds(Filter(xs, p), idOf)
    decreases |xs|
  {
    if xs != [] {
      var rest := Filter(xs[1..], p);
      FilterKeepsDistinctIds(xs[1..], p, idOf);
      if p(xs[0]) {
        var r := Filter(xs, p);
        assert r == [xs[0]] + rest;
        forall i, j | 0 <= i < j < |r| ensures idOf(r[i]) != idOf(r[j]) {
          if i == 0 {
            assert r[j] == rest[j - 1] && rest[j - 1] in xs[1..];
            var k :| 0 <= k < |xs[1..]| && xs[1..][k] == rest[j - 1];
            assert xs[k + 1] == r[j];
          }
        }
      }
    }
  }

  /**
   * With distinct ids in the stored list and in the seed, every id occurs at
   * most once in the merged collection; in particular no seed entry is duplicated.
   */
  lemma MergeDistinctIds<T>(parsed: seq<T>, seed: seq<T>, idOf: T -> string)
    requires DistinctIds(parsed, idOf) && DistinctIds(seed, idOf)
    ensures DistinctIds(Merge(parsed, seed, idOf), idOf)
  {
    var m := Merge(parsed, seed, idOf);
    var kept := Filter(seed, IdNotIn(parsed, idOf));
    FilterKeepsDistinctIds(seed, IdNotIn(parsed, idOf), idOf);
    assert m == parsed + kept;
    forall i, j | 0 <= i < j < |m| ensures idOf(m[i]) != idOf(m[j]) {
      if j < |parsed| {
        assert m[i] == parsed[i] && m[j] == parsed[j];
      } else if i < |parsed| {
        assert !HasId(parsed, idOf, idOf(m[j]));
        assert m[i] == parsed[i];
      } else {
        assert m[i] == kept[i - |parsed|] && m[j] == kept[j - |parsed|];
      }
    }
  }

  /** The ids of a non-empty sequence: its head's id and the ids of its tail. */
  lemma IdsCons<T>(xs: seq<T>, idOf: T -> string)
    requires xs != []
    ensures Ids(xs, idOf) == {idOf(xs[0])} + Ids(xs[1..], idOf)
  {
    var tail := xs[1..];
    forall x | x in Ids(xs, idOf) ensures x in {idOf(xs[0])} + Ids(tail, idOf) {
      var i :| 0 <= i < |xs| && idOf(xs[i]) == x;
      if i > 0 { assert tail[i - 1] == xs[i]; }
    }
    forall x | x in Ids(tail, idOf) ensures x in Ids(xs, idOf) {
      var i :| 0 <= i < |tail| && idOf(tail[i]) == x;
      assert xs[i + 1] == tail[i];
    }
  }

  /** In a sequence with distinct ids, the head's id is not among the tail's, and the tail's ids are distinct. */
  lemma DistinctIdsCons<T>(xs: seq<T>, idOf: T -> string)
    requires xs != [] && DistinctIds(xs, idOf)
    ensures DistinctIds(xs[1..], idOf)
    ensures idOf(xs[0]) !in Ids(xs[1..], idOf)
  {
    var tail := xs[1..];
    forall i, j | 0 <= i < j < |tail| ensures idOf(tail[i]) != idOf(tail[j]) {
      assert tail[i] == xs[i + 1] && tail[j] == xs[j + 1];
    }
    forall i | 0 <= i < |tail| ensures idOf(tail[i]) != idOf(xs[0]) {
      assert tail[i] == xs[i + 1];
    }
  }

  /** `HasId` is membership in `Ids`. */
  lemma HasIdIsMember<T>(xs: seq<T>, idOf: T -> string, id: string)
    ensures HasId(xs, idOf, id) <==> id in Ids(xs, idOf)
  {
    if id in Ids(xs, idOf) {
      var i :| 0 <= i < |xs| && idOf(xs[i]) == id;
    }
  }

  /** How many seed entries survive the filter: one per seed id the stored list does not carry. */
  lemma {:induction false} SurvivorCount<T>(parsed: seq<T>, seed: seq<T>, idOf: T -> string)
    requires DistinctIds(seed, idOf)
    ensures |Filter(seed, IdNotIn(parsed, idOf))| == |Ids(seed, idOf) - Ids(parsed, idOf)|
    decreases |seed|
  {
    if seed == [] {
      assert Ids(seed, idOf) == {};
    } else {
      var keep := IdNotIn(parsed, idOf);
      var tail := seed[1..];
      var id := idOf(seed[0]);
      var later := Ids(tail, idOf) - Ids(parsed, idOf);
      SurvivorCount(parsed, tail, idOf);
      FilterFront(seed, keep);
      assert id !in later by {
        DistinctIdsCons(seed, idOf);
      }
      assert Ids(seed, idOf) - Ids(parsed, idOf) == if keep(seed[0]) then {id} + later else later by {
        IdsCons(seed, idOf);
        HasIdIsMember(parsed, idOf, id);
      }
      if keep(seed[0]) {
        assert |{id} + later| == 1 + |later|;
      }
    }
  }

  /**
   * The size of the merged collection: the stored entries plus one entry per
   * seed id that the stored list does not carry.
   */
  lemma MergeSize<T>(parsed: seq<T>, seed: seq<T>, idOf: T -> string)
    requires DistinctIds(seed, idOf)
    ensures |Merge(parsed, seed, idOf)| == |parsed| + |Ids(seed, idOf) - Ids(parsed, idOf)|
  {
    SurvivorCount(parsed, seed, idOf);
  }

  /**
   * The browser's key-value storage, seen through `JSON.parse` for one entity
   * kind: each key holds a parsed list, or `None` when the value is absent,
   * empty, not valid JSON or not an array.
   */
  class LocalStorage<T> {
    var slots: map<string, Option<seq<T>>>

    constructor (initial: map<string, Option<seq<T>>>)
      ensures slots == initial
    {
      slots := initial;
    }

    /** The parsed value under `key`; a key never written reads as `None`. */
    function Read(key: string): Option<seq<T>>
      reads this
    {
      if key in slots then slots[key] else None
    }

    /** `localStorage.setItem(key, JSON.stringify(value))`: a full replacement of that one key. */
    method Write(key: string, value: seq<T>)
      modifies this
      ensures slots == old(slots)[key := Some(value)]
      ensures Read(key) == Some(value)
    {
      slots := slots[key := Some(value)];
    }
  }

  /**
   * Loading one kind: seed only when there is no browser window (`storage` is
   * null) or nothing usable is stored, otherwise the merge of the stored list
   * with the seed.
   */
  method Load<T(==)>(storage: LocalStorage?<T>, key: string, seed: seq<T>, idOf: T -> string)
    returns (r: seq<T>)
    ensures storage == null ==> r == seed
    ensures storage != null && storage.Read(key) == None ==> r == seed
    ensures storage != null && storage.Read(key).Some? ==> r == Merge(storage.Read(key).value, seed, idOf)
  {
    if storage == null {
      return seed;
    }
    match storage.Read(key)
    case None => r := seed;
    case Some(parsed) => r := Merge(parsed, seed, idOf);
  }

  /**
   * Saving one kind: without a browser window nothing happens; otherwise the
   * user-added subset of `all` replaces whatever `key` held, and no other key changes.
   */
  method Save<T(==)>(storage: LocalStorage?<T>, key: string, all: seq<T>, seed: seq<T>, idOf: T -> string)
    modifies storage
    ensures storage != null ==> storage.slots == old(storage.slots)[key := Some(UserAdded(all, seed, idOf))]
  {
    if storage != null {
      storage.Write(key, UserAdded(all, seed, idOf));
    }
  }

  /**
   * Load followed by save, as a page does on mount: when no stored entry carries
   * a seed id, the stored value comes back unchanged.
   */
  method ReloadAndSave<T(==)>(storage: LocalStorage<T>, key: string, seed: seq<T>, idOf: T -> string)
    returns (loaded: seq<T>)
    requires storage.Read(key).Some?
    requires forall i :: 0 <= i < |storage.Read(key).value| ==> !HasId(seed, idOf, idOf(storage.Read(key).value[i]))
    modifies storage
    ensures loaded == Merge(old(storage.Read(key)).value, seed, idOf)
    ensures storage.slots == old(storage.slots)
  {
    ghost var parsed := storage.Read(key).value;
    loaded := Load(storage, key, seed, idOf);
    SaveAfterLoad(parsed, seed, idOf);
    assert key in storage.slots && storage.slots[key] == Some(parsed);
    Save(storage, key, loaded, seed, idOf);
  }
}
