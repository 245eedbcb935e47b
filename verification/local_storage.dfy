/** The local-storage hooks: a piece of state mirrored under one key of the browser's store,
    and the recent-searches list built on it. The store is an abstract map from keys to
    values (its JSON text form is not modelled). */
module LocalStorage {
  import opened Wrappers
  import Seqs

  /** The browser's store, shared by every hook that uses it. */
  class Store<V> {
    var entries: map<string, V>

    constructor(entries0: map<string, V>)
      ensures entries == entries0
    {
      entries := entries0;
    }
  }

  /** What the hook's state starts as: the stored entry when there is one, else the initial
      value. */
  function InitialState<V>(entries: map<string, V>, key: string, initialValue: V): (r: V)
    ensures key in entries ==> r == entries[key]
    ensures key !in entries ==> r == initialValue
  {
    if key in entries then entries[key] else initialValue
  }

  /** `useLocalStorage(key, initialValue)`: the state `value` and the store entry it writes. */
  class StoredValue<V> {
    const store: Store<V>
    const key: string
    const initialValue: V
    var value: V

    constructor(store: Store<V>, key: string, initialValue: V)
      ensures this.store == store && this.key == key && this.initialValue == initialValue
      ensures value == InitialState(store.entries, key, initialValue)
    {
      this.store := store;
      this.key := key;
      this.initialValue := initialValue;
      value := InitialState(store.entries, key, initialValue);
    }

    /** `setValue(v)`: the state and the entry both take `v`; no other entry changes. */
    method SetValue(v: V)
      modifies this, store
      ensures value == v
      ensures store.entries == old(store.entries)[key := v]
    {
      value := v;
      store.entries := store.entries[key := v];
    }

    /** `setValue(f)` with a function: `f` is applied to the current state, and the state and
        the entry receive the same result. */
    method Update(f: V -> V)
      modifies this, store
      ensures value == f(old(value))
      ensures store.entries == old(store.entries)[key := f(old(value))]
    {
      var next := f(value);
      value := next;
      store.entries := store.entries[key := next];
    }

    /** `removeValue`: the state goes back to the initial value and the entry is deleted. */
    method RemoveValue()
      modifies this, store
      ensures value == initialValue
      ensures store.entries == old(store.entries) - {key}
    {
      value := initialValue;
      store.entries := store.entries - {key};
    }

    /** The `storage` event from another tab: a new value for this key replaces the state; an
        event for another key, for no key, or removing the entry changes nothing. */
    method OnStorageEvent(eventKey: Option<string>, newValue: Option<V>)
      modifies this
      ensures eventKey == Some(key) && newValue.Some? ==> value == newValue.value
      ensures !(eventKey == Some(key) && newValue.Some?) ==> value == old(value)
    {
      if eventKey == Some(key) && newValue.Some? {
        value := newValue.value;
      }
    }
  }

  /** After a write through the hook, reopening it over the same store reads the value back. */
  method WriteThenReopen<V>(store: Store<V>, key: string, initialValue: V, v: V)
    returns (reopened: StoredValue<V>)
    modifies store
    ensures reopened.value == v
  {
    var hook := new StoredValue(store, key, initialValue);
    hook.SetValue(v);
    reopened := new StoredValue(store, key, initialValue);
  }

  const RecentSearchesKey: string := "recentSearches"
  const MaxRecentSearches: nat := 10

  /** The list after `addSearch(search)`: the search first, earlier copies of it dropped, the
      rest after it, and only the first ten kept. */
  function AddSearch(prev: seq<string>, search: string): (r: seq<string>)
    ensures 1 <= |r| <= MaxRecentSearches && r[0] == search
    ensures |r| == if |Seqs.Filter(prev, (x: string) => x != search)| < MaxRecentSearches
      then 1 + |Seqs.Filter(prev, (x: string) => x != search)| else MaxRecentSearches
    ensures forall i :: 1 <= i < |r| ==> r[i] != search && r[i] in prev
  {
    Seqs.Take([search] + Seqs.Filter(prev, (x: string) => x != search), MaxRecentSearches)
  }

  /** The entries after the new search keep their earlier relative order. */
  lemma AddSearchKeepsOrder(prev: seq<string>, search: string)
    ensures Seqs.IsSubsequence(AddSearch(prev, search)[1..], prev)
  {
    var rest := Seqs.Filter(prev, (x: string) => x != search);
    var r := AddSearch(prev, search);
    assert r[1..] == Seqs.Take(rest, MaxRecentSearches - 1);
    Seqs.TakeIsSubsequence(rest, MaxRecentSearches - 1);
    Seqs.FilterIsSubsequence(prev, (x: string) => x != search);
    Seqs.SubsequenceTransitive(r[1..], rest, prev);
  }

  /** An earlier entry other than the search survives when fewer than nine other entries come
      before it, at the place after those entries: the nine most recent others are kept. */
  lemma AddSearchKeepsRecent(prev: seq<string>, search: string)
    ensures forall i ::
      (0 <= i < |prev| && prev[i] != search
       && Seqs.Count(prev[..i], (x: string) => x != search) < MaxRecentSearches - 1) ==>
      (1 + Seqs.Count(prev[..i], (x: string) => x != search) < |AddSearch(prev, search)|
       && prev[i] == AddSearch(prev, search)[1 + Seqs.Count(prev[..i], (x: string) => x != search)])
  {
    var p := (x: string) => x != search;
    var r := AddSearch(prev, search);
    forall i | 0 <= i < |prev| && prev[i] != search && Seqs.Count(prev[..i], p) < MaxRecentSearches - 1
      ensures 1 + Seqs.Count(prev[..i], p) < |r| && prev[i] == r[1 + Seqs.Count(prev[..i], p)]
    {
      Seqs.FilterIndex(prev, p, i);
    }
  }

  /** Adding the same search twice in a row gives the list of adding it once. */
  lemma {:induction false} AddSearchIdempotent(prev: seq<string>, search: string)
    ensures AddSearch(AddSearch(prev, search), search) == AddSearch(prev, search)
  {
    var once := AddSearch(prev, search);
    var p := (x: string) => x != search;
    assert once == [search] + once[1..];
    assert forall i :: 0 <= i < |once[1..]| ==> p(once[1..][i]);
    Seqs.FilterKeepsAll(once[1..], p);
    Seqs.FilterConcat([search], once[1..], p);
    assert Seqs.Filter([search], p) == [];
    assert Seqs.Filter(once, p) == once[1..];
  }

  /** A list without repeats stays without repeats. */
  lemma AddSearchNoDuplicates(prev: seq<string>, search: string)
    requires Seqs.NoDuplicates(prev)
    ensures Seqs.NoDuplicates(AddSearch(prev, search))
  {
    var p := (x: string) => x != search;
    var rest := Seqs.Filter(prev, p);
    Seqs.FilterNoDuplicates(prev, p);
    var r := AddSearch(prev, search);
    forall i, j | 0 <= i < j < |r| ensures r[i] != r[j] {
      if i > 0 {
        assert r[i] == rest[i - 1] && r[j] == rest[j - 1];
      }
    }
  }

  /** `useRecentSearches`: the stored list under "recentSearches". */
  class RecentSearches {
    const hook: StoredValue<seq<string>>

    constructor(store: Store<seq<string>>)
      ensures hook.store == store && hook.key == RecentSearchesKey && hook.initialValue == []
      ensures hook.value == InitialState(store.entries, RecentSearchesKey, [])
      ensures fresh(hook)
    {
      hook := new StoredValue(store, RecentSearchesKey, []);
    }

    method Add(search: string)
      modifies hook, hook.store
      ensures hook.value == AddSearch(old(hook.value), search)
      ensures hook.store.entries == old(hook.store.entries)[hook.key := hook.value]
    {
      hook.Update(prev => AddSearch(prev, search));
    }

    /** `clearSearches`: the stored list becomes empty. */
    method Clear()
      modifies hook, hook.store
      ensures hook.value == []
      ensures hook.store.entries == old(hook.store.entries)[hook.key := []]
    {
      hook.SetValue([]);
    }
  }
}
