/** Client-side scenarios that exercise the caching fetcher through the
    contracts of `DogApi` alone. */
module Scenarios {
  import opened Wrappers
  import opened BreedNames
  import opened CacheModel
  import opened DogApi

  /** "Husky" and " HUSKY " are one breed: both are non-blank and share the
      key "husky". */
  lemma HuskyKeys()
    ensures !IsBlank("Husky") && !IsBlank(" HUSKY ")
    ensures Normalized("Husky") == "husky" && Normalized(" HUSKY ") == "husky"
  {
    TrimOfTrimmed("Husky");
    assert ToLower("Husky") == "husky" by {
      var u := ToLower("Husky");
      assert u[0] == 'h' && u[1] == 'u' && u[2] == 's' && u[3] == 'k' && u[4] == 'y';
    }
    assert ToLower("HUSKY") == ToLower("Husky") by {
      var u := ToLower("HUSKY");
      assert u[0] == 'h' && u[1] == 'u' && u[2] == 's' && u[3] == 'k' && u[4] == 'y';
    }
    NormalizedIgnoresCase("HUSKY", "Husky");
    assert " HUSKY " == " " + "HUSKY" + " ";
    NormalizedIgnoresPadding(" ", "HUSKY", " ");
    NormalizedEmptyIffBlank("Husky");
    NormalizedEmptyIffBlank(" HUSKY ");
  }

  /** Once the key of `a` holds `v`, a spelling `b` with the same key is a
      non-blank name that finds `v` in the cache. */
  lemma OtherSpellingHits(s: State, a: string, b: string, v: seq<string>)
    requires !IsBlank(a) && Normalized(a) == Normalized(b)
    requires s.cache == map[Normalized(a) := v]
    ensures !IsBlank(b) && Normalized(b) in s.cache && s.cache[Normalized(b)] == v
  {
    NormalizedEmptyIffBlank(a);
    NormalizedEmptyIffBlank(b);
  }

  /** The first lookup of a non-blank name on a fresh caching fetcher whose
      wrapped fetcher answers `subBreeds` to every name: the call is counted,
      the name is forwarded as given and its key holds the answer. */
  method FirstLookup(a: string, subBreeds: seq<string>)
    returns (remote: BreedFetcher, fetcher: CachingBreedFetcher, first: Result<seq<string>>)
    requires !IsBlank(a)
    ensures fresh(remote) && fresh(fetcher)
    ensures fetcher.delegate == remote && fetcher.Valid()
    ensures forall h, n :: remote.source(h, n) == Ok(subBreeds)
    ensures first == Ok(subBreeds) && remote.requests == [a]
    ensures fetcher.Abstract() == State(map[Normalized(a) := subBreeds], 1)
  {
    NormalizedEmptyIffBlank(a);
    remote := new BreedFetcher((h: seq<string>, n: string) => Ok(subBreeds));
    fetcher := new CachingBreedFetcher(remote);
    first := fetcher.GetSubBreeds(Some(a));
  }

  /** Two spellings of one breed hit one cache entry: both calls return the
      same list, and only the first reaches the wrapped fetcher, which is
      asked with the first spelling exactly as given. */
  method SameBreedScenario(a: string, b: string, subBreeds: seq<string>)
    returns (first: Result<seq<string>>, second: Result<seq<string>>, calls: nat, asked: seq<string>)
    requires !IsBlank(a) && Normalized(a) == Normalized(b)
    ensures first == second == Ok(subBreeds)
    ensures calls == 1 && asked == [a]
  {
    var remote, fetcher;
    remote, fetcher, first := FirstLookup(a, subBreeds);
    OtherSpellingHits(fetcher.Abstract(), a, b, subBreeds);
    second := fetcher.GetSubBreeds(Some(b));
    assert fetcher.callsMade == 1 && remote.requests == [a];
    calls := fetcher.GetCallsMade();
    asked := remote.requests;
  }

  /** A breed the wrapped fetcher does not know is not cached: two lookups
      both fail with the wrapped fetcher's own message and both reach it. */
  method FailureScenario(name: string)
    returns (first: Result<seq<string>>, second: Result<seq<string>>, calls: nat, asked: seq<string>)
    requires !IsBlank(name)
    ensures first == second == BreedNotFound(name)
    ensures calls == 2 && asked == [name, name]
  {
    var remote := new BreedFetcher((h: seq<string>, n: string) => BreedNotFound(n));
    var fetcher := new CachingBreedFetcher(remote);
    first := fetcher.GetSubBreeds(Some(name));
    second := fetcher.GetSubBreeds(Some(name));
    calls := fetcher.GetCallsMade();
    asked := remote.requests;
  }

  /** A blank and a null name are both rejected before the cache is
      consulted; the counter stays at zero and the wrapped fetcher is never
      asked. */
  method BlankScenario(blank: string)
    returns (first: Result<seq<string>>, second: Result<seq<string>>, calls: nat, asked: seq<string>)
    requires AllTrimmable(blank)
    ensures first == second == BreedNotFound("breed")
    ensures calls == 0 && asked == []
  {
    BlankIffAllTrimmable(blank);
    var remote := new BreedFetcher((h: seq<string>, n: string) => Ok([n]));
    var fetcher := new CachingBreedFetcher(remote);
    first := fetcher.GetSubBreeds(Some(blank));
    second := fetcher.GetSubBreeds(None);
    calls := fetcher.GetCallsMade();
    asked := remote.requests;
  }

  /** Records the value-semantics choice for the defensive copy made by
      `getSubBreeds`: sequences are values, so a list the caller builds from
      the result is a new value, and the second lookup still returns the
      stored list. */
  method DefensiveCopyScenario(name: string, subBreeds: seq<string>, extra: string)
    returns (first: Result<seq<string>>, changed: seq<string>, second: Result<seq<string>>)
    requires !IsBlank(name)
    ensures first == second == Ok(subBreeds)
    ensures changed == subBreeds + [extra]
  {
    var remote := new BreedFetcher((h: seq<string>, n: string) => Ok(subBreeds));
    var fetcher := new CachingBreedFetcher(remote);
    first := fetcher.GetSubBreeds(Some(name));
    changed := first.value + [extra];
    second := fetcher.GetSubBreeds(Some(name));
  }
}
