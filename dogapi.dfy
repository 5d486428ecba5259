/** The caching decorator of package `dogapi` and the fetcher it wraps. */
module DogApi {
  import opened Wrappers
  import opened BreedNames
  import opened CacheModel

  /** Every key of `c` is the normal form of one of the names in `names`. */
  ghost predicate KeysComeFrom(c: Cache, names: seq<string>) {
    forall k :: k in c ==> exists i :: 0 <= i < |names| && Normalized(names[i]) == k
  }

  lemma KeysComeFromExtended(c: Cache, names: seq<string>, name: string, v: seq<string>)
    requires KeysComeFrom(c, names)
    ensures KeysComeFrom(c, names + [name])
    ensures KeysComeFrom(c[Normalized(name) := v], names + [name])
  {
    var names' := names + [name];
    forall k | k in c ensures exists i :: 0 <= i < |names'| && Normalized(names'[i]) == k {
      var i :| 0 <= i < |names| && Normalized(names[i]) == k;
      assert names'[i] == names[i];
    }
    assert Normalized(names'[|names|]) == Normalized(name);
  }

  /** Any implementation of the `BreedFetcher` interface, seen from outside.
      Nothing is known about how it answers: its answer to a name is an
      arbitrary function `source` of the requests it has received before and
      of the name itself, which covers a remote service whose data changes
      over time. It records the names it is asked for. */
  class BreedFetcher {
    const source: (seq<string>, string) -> Result<seq<string>>
    var requests: seq<string>

    constructor (source: (seq<string>, string) -> Result<seq<string>>)
      ensures this.source == source && requests == []
    {
      this.source := source;
      requests := [];
    }

    /** `getSubBreeds(breed)` of the wrapped fetcher. */
    method GetSubBreeds(breed: string) returns (r: Result<seq<string>>)
      modifies this
      ensures requests == old(requests) + [breed]
      ensures r == source(old(requests), breed)
    {
      r := source(requests, breed);
      requests := requests + [breed];
    }
  }

  /** `CachingBreedFetcher`: memoises the successful lookups of a wrapped
      fetcher under the normalised breed name and counts the lookups that
      reach it. */
  class CachingBreedFetcher {
    const delegate: BreedFetcher
    var cache: Cache
    var callsMade: nat
    /** The names this instance has passed to the delegate, in order. */
    ghost var forwarded: seq<string>

    /** The object invariant: keys are normalised and non-empty, the counter
        counts the forwarded names, and every entry was created by one of
        them. */
    ghost predicate Valid()
      reads this
    {
      && KeysNormalized(cache)
      && callsMade == |forwarded|
      && KeysComeFrom(cache, forwarded)
    }

    /** The state as a value of the lookup model. */
    function Abstract(): (st: State)
      reads this
    {
      State(cache, callsMade)
    }

    constructor (fetcher: BreedFetcher)
      ensures Valid()
      ensures delegate == fetcher && Abstract() == Initial && forwarded == []
    {
      delegate := fetcher;
      cache := map[];
      callsMade := 0;
      forwarded := [];
    }

    /** `getSubBreeds(breed)`: reject a null or blank name, serve a cached
        entry, or count the call, delegate with the name as given, and cache a
        successful answer. */
    method GetSubBreeds(breed: Option<string>) returns (r: Result<seq<string>>)
      requires Valid()
      modifies this, delegate
      ensures Valid()
      ensures var history := old(delegate.requests);
              (Abstract(), r) == Lookup(old(Abstract()), breed, n => delegate.source(history, n))
      ensures Misses(old(Abstract()), breed) ==>
                delegate.requests == old(delegate.requests) + [breed.value]
                && forwarded == old(forwarded) + [breed.value]
      ensures !Misses(old(Abstract()), breed) ==>
                delegate.requests == old(delegate.requests) && forwarded == old(forwarded)
    {
      if breed.None? || IsBlank(breed.value) {
        return BreedNotFound(InvalidBreedMessage);
      }
      var name := breed.value;
      var key := Normalized(name);
      if key in cache {
        return Ok(cache[key]);
      }
      callsMade := callsMade + 1;
      KeysComeFromExtended(cache, forwarded, name, []);
      forwarded := forwarded + [name];
      r := delegate.GetSubBreeds(name);
      if r.Ok? {
        StoreKeepsKeysNormalized(cache, name, r.value);
        KeysComeFromExtended(cache, old(forwarded), name, r.value);
        cache := cache[key := r.value];
      }
    }

    /** `getCallsMade()`: the number of lookups this instance has passed to
        the wrapped fetcher, read without side effects. */
    method GetCallsMade() returns (n: nat)
      requires Valid()
      ensures n == callsMade && n == |forwarded|
    {
      n := callsMade;
    }
  }
}
