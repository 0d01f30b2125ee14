/**
 * `Genrelizer.GenrelizeAll`: every song entry of the cache has its genre
 * and subgenre tags replaced, in place, by the labels the current
 * resolver gives them.
 *
 * The cache's grouping of entries into lists is flattened into one
 * sequence, and the `SortString` wrapping of the tags is dropped: an entry
 * is its two tags.
 */
module SongCache {
  import opened Wrappers
  import opened Dictionaries
  import opened Localization
  import Genrelizer

  /** A song entry, reduced to its two tags; `None` is null. */
  class SongEntry {
    var genre: Option<string>
    var subgenre: Option<string>

    constructor (genre: Option<string>, subgenre: Option<string>)
      ensures this.genre == genre && this.subgenre == subgenre
    {
      this.genre := genre;
      this.subgenre := subgenre;
    }
  }

  /** A resolver of a pair of tags, as `GetGenresOrDefault` with its tables bound. */
  type Resolver = (Option<string>, Option<string>) -> Result<Labels, Failure>

  /** `GetGenresOrDefault` over the given localizer and tables. */
  function Resolve(loc: Localizer, t: Genrelizer.GenreTables): Resolver {
    (genre, subgenre) => Genrelizer.GetGenresOrDefault(loc, t, genre, subgenre)
  }

  /** The entry's tags are the labels the resolver gives the tags it had before. */
  predicate Genrelized(resolve: Resolver, e: SongEntry, genre: Option<string>, subgenre: Option<string>)
    reads e
  {
    var r := resolve(genre, subgenre);
    r.Ok? && e.genre == r.value.genre && e.subgenre == r.value.subgenre
  }

  /**
   * The loop over the entries. An exception from the resolver leaves the
   * entries before the failing one replaced and the rest untouched; `done`
   * is the number of entries replaced. On well-formed tables nothing fails.
   */
  method GenrelizeAll(loc: Localizer, t: Genrelizer.GenreTables, entries: seq<SongEntry>)
    returns (failure: Option<Failure>, ghost done: nat)
    requires forall i, j | 0 <= i < j < |entries| :: entries[i] != entries[j]
    modifies set i | 0 <= i < |entries| :: entries[i]
    ensures done <= |entries|
    ensures forall i | 0 <= i < done ::
      Genrelized(Resolve(loc, t), entries[i], old(entries[i].genre), old(entries[i].subgenre))
    ensures forall i | done <= i < |entries| ::
      entries[i].genre == old(entries[i].genre) && entries[i].subgenre == old(entries[i].subgenre)
    ensures failure.None? <==> done == |entries|
    ensures failure.Some? ==>
      Genrelizer.GetGenresOrDefault(loc, t, old(entries[done].genre), old(entries[done].subgenre)) == Err(failure.value)
    ensures Genrelizer.WellFormed(t) ==> failure.None?
  {
    ghost var total := Genrelizer.WellFormed(t);
    if total {
      forall genre, subgenre ensures Resolve(loc, t)(genre, subgenre).Ok? {
        Genrelizer.Totality(loc, t, genre, subgenre);
      }
    }
    failure, done := GenrelizeEntries(Resolve(loc, t), entries);
  }

  /**
   * The loop itself, for any resolver: it stops at the first entry the
   * resolver throws on, and a resolver that never throws replaces them all.
   */
  method GenrelizeEntries(resolve: Resolver, entries: seq<SongEntry>)
    returns (failure: Option<Failure>, ghost done: nat)
    requires forall i, j | 0 <= i < j < |entries| :: entries[i] != entries[j]
    modifies set i | 0 <= i < |entries| :: entries[i]
    ensures done <= |entries|
    ensures forall i | 0 <= i < done :: Genrelized(resolve, entries[i], old(entries[i].genre), old(entries[i].subgenre))
    ensures forall i | done <= i < |entries| ::
      entries[i].genre == old(entries[i].genre) && entries[i].subgenre == old(entries[i].subgenre)
    ensures failure.None? <==> done == |entries|
    ensures failure.Some? ==> resolve(old(entries[done].genre), old(entries[done].subgenre)) == Err(failure.value)
    ensures (forall genre, subgenre :: resolve(genre, subgenre).Ok?) ==> failure.None?
  {
    var k := 0;
    while k < |entries|
      invariant 0 <= k <= |entries|
      invariant forall i | 0 <= i < k :: Genrelized(resolve, entries[i], old(entries[i].genre), old(entries[i].subgenre))
      invariant forall i | k <= i < |entries| ::
        entries[i].genre == old(entries[i].genre) && entries[i].subgenre == old(entries[i].subgenre)
    {
      failure := GenrelizeEntry(resolve, entries[k]);
      if failure.Some? {
        return failure, k;
      }
      k := k + 1;
    }
    return None, k;
  }

  /** The body of the loop: one entry's tags replaced, or left alone when the resolver throws. */
  method GenrelizeEntry(resolve: Resolver, e: SongEntry) returns (failure: Option<Failure>)
    modifies e
    ensures failure.None? ==> Genrelized(resolve, e, old(e.genre), old(e.subgenre))
    ensures failure.Some? ==>
      && e.genre == old(e.genre) && e.subgenre == old(e.subgenre)
      && resolve(e.genre, e.subgenre) == Err(failure.value)
  {
    var r := resolve(e.genre, e.subgenre);
    if r.Err? {
      return Some(r.error);
    }
    e.genre, e.subgenre := r.value.genre, r.value.subgenre;
    return None;
  }
}
