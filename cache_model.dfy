/** The caching fetcher's lookup rules as a function on values: the state is
    the cache (normalised breed name to sub-breeds) and the call counter, and
    one lookup maps an old state, a possibly-null breed name and the wrapped
    fetcher's answer to a new state and a result. */
module CacheModel {
  import opened Wrappers
  import opened BreedNames

  type Cache = map<string, seq<string>>

  datatype State = State(cache: Cache, callsMade: nat)

  /** The message of the exception raised for a null or blank name. */
  const InvalidBreedMessage: string := "breed"

  /** The state a freshly constructed caching fetcher starts in. */
  const Initial: State := State(map[], 0)

  /** Every key is a non-empty fixed point of normalisation. */
  predicate KeysNormalized(c: Cache) {
    forall k :: k in c ==> k != [] && Normalized(k) == k
  }

  /** A lookup of `breed` in state `s` reaches the wrapped fetcher. */
  predicate Misses(s: State, breed: Option<string>) {
    breed.Some? && !IsBlank(breed.value) && Normalized(breed.value) !in s.cache
  }

  /** One `getSubBreeds(breed)` call, where `fetch` is what the wrapped fetcher
      answers if it is asked. */
  function Lookup(s: State, breed: Option<string>, fetch: string -> Result<seq<string>>)
    : (o: (State, Result<seq<string>>))
    ensures breed.None? || IsBlank(breed.value) ==> o == (s, BreedNotFound(InvalidBreedMessage))
    ensures breed.Some? && !IsBlank(breed.value) && Normalized(breed.value) in s.cache ==>
              o == (s, Ok(s.cache[Normalized(breed.value)]))
    ensures Misses(s, breed) ==> o.0.callsMade == s.callsMade + 1 && o.1 == fetch(breed.value)
    ensures Misses(s, breed) && o.1.BreedNotFound? ==> o.0.cache == s.cache
    ensures Misses(s, breed) && o.1.Ok? ==> o.0.cache == s.cache[Normalized(breed.value) := o.1.value]
  {
    match breed
    case None => (s, BreedNotFound(InvalidBreedMessage))
    case Some(name) =>
      if IsBlank(name) then (s, BreedNotFound(InvalidBreedMessage))
      else
        var key := Normalized(name);
        if key in s.cache then (s, Ok(s.cache[key]))
        else
          var calls := s.callsMade + 1;
          match fetch(name)
          case BreedNotFound(message) => (State(s.cache, calls), BreedNotFound(message))
          case Ok(subBreeds) => (State(s.cache[key := subBreeds], calls), Ok(subBreeds))
  }

  /** A sequence of lookups against a wrapped fetcher that answers each name the
      same way every time. */
  function Run(s: State, names: seq<string>, fetch: string -> Result<seq<string>>): (t: State)
    decreases |names|
  {
    if names == [] then s else Run(Lookup(s, Some(names[0]), fetch).0, names[1..], fetch)
  }

  /** The keys a sequence of names looks up: the normal forms of its
      non-blank names. */
  function KeysOf(names: seq<string>): (keys: set<string>)
    decreases |names|
  {
    if names == [] then {}
    else (if IsBlank(names[0]) then {} else {Normalized(names[0])}) + KeysOf(names[1..])
  }

  /** Storing under the normal form of a non-blank name keeps every key
      normalised and non-empty. */
  lemma StoreKeepsKeysNormalized(c: Cache, name: string, v: seq<string>)
    requires KeysNormalized(c) && !IsBlank(name)
    ensures KeysNormalized(c[Normalized(name) := v])
  {
    NormalizedIdempotent(name);
    NormalizedEmptyIffBlank(name);
  }

  /** A lookup keeps every key normalised and non-empty. */
  lemma LookupKeepsKeysNormalized(s: State, breed: Option<string>, fetch: string -> Result<seq<string>>)
    requires KeysNormalized(s.cache)
    ensures KeysNormalized(Lookup(s, breed, fetch).0.cache)
  {
    if Misses(s, breed) && Lookup(s, breed, fetch).1.Ok? {
      StoreKeepsKeysNormalized(s.cache, breed.value, Lookup(s, breed, fetch).1.value);
    }
  }

  /** A lookup never removes or changes an existing entry, and the counter
      rises by at most one. */
  lemma LookupOnlyGrows(s: State, breed: Option<string>, fetch: string -> Result<seq<string>>)
    ensures var t := Lookup(s, breed, fetch).0;
            s.cache.Keys <= t.cache.Keys
            && (forall k :: k in s.cache ==> t.cache[k] == s.cache[k])
            && s.callsMade <= t.callsMade <= s.callsMade + 1
  {
  }

  /** Two names with the same normal form share one entry: once the first has
      been fetched successfully, the second is served from the cache, with the
      same sub-breeds and without reaching the wrapped fetcher. */
  lemma SameKeySharesEntry(s: State, a: string, b: string, fetch: string -> Result<seq<string>>)
    requires !IsBlank(a) && Normalized(a) == Normalized(b)
    requires Lookup(s, Some(a), fetch).1.Ok?
    ensures var (t, r) := Lookup(s, Some(a), fetch);
            Lookup(t, Some(b), fetch) == (t, r)
  {
    NormalizedEmptyIffBlank(a);
    NormalizedEmptyIffBlank(b);
  }

  /** Looking a name up twice reaches the wrapped fetcher at most once when the
      first answer is a success, and returns the same list both times. */
  lemma RepeatedSuccessFetchesOnce(s: State, name: string, fetch: string -> Result<seq<string>>)
    requires !IsBlank(name) && fetch(name).Ok?
    ensures Run(s, [name, name], fetch).callsMade
            == s.callsMade + (if Normalized(name) in s.cache then 0 else 1)
    ensures var (t, r) := Lookup(s, Some(name), fetch);
            Lookup(t, Some(name), fetch).1 == r
  {
    var t := Lookup(s, Some(name), fetch).0;
    assert [name, name][1..] == [name];
    assert Run(t, [name], fetch) == Lookup(t, Some(name), fetch).0;
  }

  /** A failing name is never cached, so each of `m` repeated lookups of it
      reaches the wrapped fetcher again and the counter rises by `m`. */
  lemma {:induction false} RepeatedFailureCountsEachTime(
    s: State, name: string, m: nat, fetch: string -> Result<seq<string>>)
    requires !IsBlank(name) && Normalized(name) !in s.cache && fetch(name).BreedNotFound?
    ensures Run(s, seq(m, _ => name), fetch) == State(s.cache, s.callsMade + m)
    decreases m
  {
    var names := seq(m, _ => name);
    if m > 0 {
      var t := Lookup(s, Some(name), fetch).0;
      assert names[0] == name;
      assert names[1..] == seq(m - 1, _ => name);
      RepeatedFailureCountsEachTime(t, name, m - 1, fetch);
    }
  }

  /** A run keeps every key normalised and non-empty. */
  lemma {:induction false} RunKeepsKeysNormalized(s: State, names: seq<string>, fetch: string -> Result<seq<string>>)
    requires KeysNormalized(s.cache)
    ensures KeysNormalized(Run(s, names, fetch).cache)
    decreases |names|
  {
    if names != [] {
      LookupKeepsKeysNormalized(s, Some(names[0]), fetch);
      RunKeepsKeysNormalized(Lookup(s, Some(names[0]), fetch).0, names[1..], fetch);
    }
  }

  /** Over any run the counter never decreases and rises by at most one per
      name, and no entry is ever evicted or overwritten. */
  lemma {:induction false} RunOnlyGrows(s: State, names: seq<string>, fetch: string -> Result<seq<string>>)
    ensures var t := Run(s, names, fetch);
            s.cache.Keys <= t.cache.Keys
            && (forall k :: k in s.cache ==> t.cache[k] == s.cache[k])
            && s.callsMade <= t.callsMade <= s.callsMade + |names|
    decreases |names|
  {
    if names != [] {
      LookupOnlyGrows(s, Some(names[0]), fetch);
      RunOnlyGrows(Lookup(s, Some(names[0]), fetch).0, names[1..], fetch);
    }
  }

  lemma KeysOfCons(n: string, rest: seq<string>)
    ensures KeysOf([n] + rest) == (if IsBlank(n) then {} else {Normalized(n)}) + KeysOf(rest)
  {
    assert ([n] + rest)[1..] == rest;
  }

  /** A key is looked up by a sequence of names exactly when one of its
      non-blank names normalises to it. */
  lemma {:induction false} KeysOfMeaning(names: seq<string>, k: string)
    ensures k in KeysOf(names) <==> exists i :: 0 <= i < |names| && !IsBlank(names[i]) && Normalized(names[i]) == k
    decreases |names|
  {
    if names != [] {
      KeysOfMeaning(names[1..], k);
      if k in KeysOf(names[1..]) {
        var i :| 0 <= i < |names[1..]| && !IsBlank(names[1..][i]) && Normalized(names[1..][i]) == k;
        assert names[i + 1] == names[1..][i];
      }
      if exists i :: 0 <= i < |names| && !IsBlank(names[i]) && Normalized(names[i]) == k {
        var i :| 0 <= i < |names| && !IsBlank(names[i]) && Normalized(names[i]) == k;
        if i > 0 {
          assert names[1..][i - 1] == names[i];
        }
      }
    }
  }

  /** Adding a key the cache lacks leaves one fewer key still to be added. */
  lemma NewKeyCounted<K>(c: set<K>, k: K, rs: set<K>)
    requires k !in c
    ensures |({k} + rs) - c| == 1 + |rs - (c + {k})|
    ensures (c + {k}) + rs == c + ({k} + rs)
  {
    var later := rs - (c + {k});
    assert ({k} + rs) - c == {k} + later;
  }

  /** Looking up a key the cache holds leaves the keys still to be added as
      they were. */
  lemma OldKeyIgnored<K>(c: set<K>, k: K, rs: set<K>)
    requires k in c
    ensures ({k} + rs) - c == rs - c
    ensures c + rs == c + ({k} + rs)
  {
  }

  lemma StepBlank(s: State, n: string, rest: seq<string>, fetch: string -> Result<seq<string>>)
    requires IsBlank(n)
    ensures var t := Lookup(s, Some(n), fetch).0;
            t.callsMade + |KeysOf(rest) - t.cache.Keys| == s.callsMade + |KeysOf([n] + rest) - s.cache.Keys|
            && t.cache.Keys + KeysOf(rest) == s.cache.Keys + KeysOf([n] + rest)
  {
    KeysOfCons(n, rest);
  }

  lemma StepHit(s: State, n: string, rest: seq<string>, fetch: string -> Result<seq<string>>)
    requires !IsBlank(n) && Normalized(n) in s.cache
    ensures var t := Lookup(s, Some(n), fetch).0;
            t.callsMade + |KeysOf(rest) - t.cache.Keys| == s.callsMade + |KeysOf([n] + rest) - s.cache.Keys|
            && t.cache.Keys + KeysOf(rest) == s.cache.Keys + KeysOf([n] + rest)
  {
    KeysOfCons(n, rest);
    OldKeyIgnored(s.cache.Keys, Normalized(n), KeysOf(rest));
  }

  lemma StepMiss(s: State, n: string, rest: seq<string>, fetch: string -> Result<seq<string>>)
    requires Misses(s, Some(n)) && fetch(n).Ok?
    ensures var t := Lookup(s, Some(n), fetch).0;
            t.callsMade + |KeysOf(rest) - t.cache.Keys| == s.callsMade + |KeysOf([n] + rest) - s.cache.Keys|
            && t.cache.Keys + KeysOf(rest) == s.cache.Keys + KeysOf([n] + rest)
  {
    KeysOfCons(n, rest);
    var t := Lookup(s, Some(n), fetch).0;
    assert t.cache.Keys == s.cache.Keys + {Normalized(n)};
    NewKeyCounted(s.cache.Keys, Normalized(n), KeysOf(rest));
  }

  /** One successful step of a run either adds one new key for one call or
      changes nothing. */
  lemma StepCountsNewKey(s: State, n: string, rest: seq<string>, fetch: string -> Result<seq<string>>)
    requires fetch(n).Ok?
    ensures var t := Lookup(s, Some(n), fetch).0;
            t.callsMade + |KeysOf(rest) - t.cache.Keys| == s.callsMade + |KeysOf([n] + rest) - s.cache.Keys|
            && t.cache.Keys + KeysOf(rest) == s.cache.Keys + KeysOf([n] + rest)
  {
    if IsBlank(n) {
      StepBlank(s, n, rest, fetch);
    } else if Normalized(n) in s.cache {
      StepHit(s, n, rest, fetch);
    } else {
      StepMiss(s, n, rest, fetch);
    }
  }

  /** When the wrapped fetcher always succeeds, the counter after a run has
      risen by exactly the number of distinct new keys the run looked up,
      however often and in whatever order the names were repeated or varied
      in case and surrounding whitespace; and those keys are exactly the ones
      added to the cache. */
  lemma {:induction false} RunCountsDistinctMisses(s: State, names: seq<string>, fetch: string -> Result<seq<string>>)
    requires forall n :: fetch(n).Ok?
    ensures Run(s, names, fetch).callsMade == s.callsMade + |KeysOf(names) - s.cache.Keys|
    ensures Run(s, names, fetch).cache.Keys == s.cache.Keys + KeysOf(names)
    decreases |names|
  {
    if names == [] {
      assert KeysOf(names) == {};
    } else {
      var n, rest := names[0], names[1..];
      assert names == [n] + rest;
      var t := Lookup(s, Some(n), fetch).0;
      RunCountsDistinctMisses(t, rest, fetch);
      StepCountsNewKey(s, n, rest, fetch);
    }
  }
}
