/**
 * The case-insensitive dictionaries (`new Dictionary<string, V>(StringComparer.OrdinalIgnoreCase)`)
 * holding the genre aliases, the subgenre aliases and the subgenre mappings,
 * and their construction by repeated `Add`.
 *
 * Such a dictionary is a map from the case fold of each key to its value:
 * two keys equal ignoring case are one entry.
 */
module Dictionaries {
  import opened Wrappers
  import opened Text

  /** The exceptions the resolvers and the table construction can raise. */
  datatype Failure =
    | KeyNotFound(key: string)   // an indexer read of a missing key
    | ArgumentNull               // a dictionary read with a null key
    | NullReference              // a member read through a null mapping
    | DuplicateKey(key: string)  // `Add` of a key already present

  /** A resolved (genre, subgenre) pair; `None` is null. */
  datatype Labels = Labels(genre: Option<string>, subgenre: Option<string>)

  /** The three loaded tables, as values; `M` is the resolver's mapping record, which JSON may leave null. */
  datatype Tables<M> = Tables(
    genreAliases: map<string, string>,
    subgenreAliases: map<string, string>,
    subgenreMappings: map<string, Option<M>>)

  /** `ContainsKey(key)`. */
  predicate ContainsKey<V>(d: map<string, V>, key: string) {
    Fold(key) in d
  }

  /** `GetValueOrDefault(key, default)`. */
  function GetValueOrDefault<V>(d: map<string, V>, key: string, default: V): V {
    if Fold(key) in d then d[Fold(key)] else default
  }

  /** The indexer `d[key]`, which throws on a missing key. */
  function Index<V>(d: map<string, V>, key: string): Result<V, Failure> {
    if Fold(key) in d then Ok(d[Fold(key)]) else Err(KeyNotFound(key))
  }

  /** Every lookup treats two keys equal ignoring case as the same key. */
  lemma LookupsIgnoreCase<V>(d: map<string, V>, a: string, b: string, default: V)
    requires EqualsIgnoreCase(a, b)
    ensures ContainsKey(d, a) <==> ContainsKey(d, b)
    ensures GetValueOrDefault(d, a, default) == GetValueOrDefault(d, b, default)
    ensures Index(d, a).Ok? == Index(d, b).Ok?
    ensures Index(d, a).Ok? ==> Index(d, a).value == Index(d, b).value
  {
  }

  /**
   * The indexer agrees with the other two lookups: it succeeds exactly on
   * the keys `ContainsKey` reports, with the value `GetValueOrDefault`
   * gives whatever the default, and otherwise throws for the key it was given.
   */
  lemma IndexAgreesWithLookups<V>(d: map<string, V>, key: string, default: V)
    ensures Index(d, key).Ok? <==> ContainsKey(d, key)
    ensures Index(d, key).Ok? ==> Index(d, key).value == GetValueOrDefault(d, key, default)
    ensures Index(d, key).Err? ==> Index(d, key).error == KeyNotFound(key)
  {
  }

  /** No two keys of `pairs` are equal ignoring case. */
  predicate DistinctIgnoringCase<V>(pairs: seq<(string, V)>) {
    forall i, j | 0 <= i < j < |pairs| :: Fold(pairs[i].0) != Fold(pairs[j].0)
  }

  /**
   * The entries of a deserialized JSON object: a case-sensitive dictionary,
   * so no key is written twice in exactly the same spelling.
   */
  predicate DistinctKeys<V>(pairs: seq<(string, V)>) {
    forall i, j | 0 <= i < j < |pairs| :: pairs[i].0 != pairs[j].0
  }

  /** No key of `pairs` is already in `d`. */
  predicate FreshIn<V>(d: map<string, V>, pairs: seq<(string, V)>) {
    forall i | 0 <= i < |pairs| :: Fold(pairs[i].0) !in d
  }

  /**
   * `foreach (key in pairs) d.Add(key, value)`: `Add` throws on a key
   * already present instead of overwriting, so the loop stops there with
   * the entries added before it. The dictionary reached and the exception.
   */
  function Adds<V>(d: map<string, V>, pairs: seq<(string, V)>): (map<string, V>, Option<Failure>)
    decreases |pairs|
  {
    if pairs == [] then (d, None)
    else if Fold(pairs[0].0) in d then (d, Some(DuplicateKey(pairs[0].0)))
    else Adds(d[Fold(pairs[0].0) := pairs[0].1], pairs[1..])
  }

  /** The loop succeeds exactly when its keys are new and pairwise distinct, ignoring case. */
  lemma {:induction false} AddsSucceedsIff<V>(d: map<string, V>, pairs: seq<(string, V)>)
    ensures Adds(d, pairs).1.None? <==> FreshIn(d, pairs) && DistinctIgnoringCase(pairs)
    decreases |pairs|
  {
    if pairs != [] && Fold(pairs[0].0) !in d {
      var k := Fold(pairs[0].0);
      var d' := d[k := pairs[0].1];
      var rest := pairs[1..];
      AddsSucceedsIff(d', rest);
      if FreshIn(d', rest) && DistinctIgnoringCase(rest) {
        forall i, j | 0 <= i < j < |pairs|
          ensures Fold(pairs[i].0) != Fold(pairs[j].0)
        {
          if i > 0 {
            assert pairs[i] == rest[i - 1] && pairs[j] == rest[j - 1];
          } else {
            assert pairs[j] == rest[j - 1];
          }
        }
        forall i | 0 <= i < |pairs|
          ensures Fold(pairs[i].0) !in d
        {
          if i > 0 {
            assert pairs[i] == rest[i - 1];
          }
        }
      }
      if FreshIn(d, pairs) && DistinctIgnoringCase(pairs) {
        forall i | 0 <= i < |rest|
          ensures Fold(rest[i].0) !in d'
        {
          assert rest[i] == pairs[i + 1];
        }
        forall i, j | 0 <= i < j < |rest|
          ensures Fold(rest[i].0) != Fold(rest[j].0)
        {
          assert rest[i] == pairs[i + 1] && rest[j] == pairs[j + 1];
        }
      }
    } else if pairs != [] {
      assert !FreshIn(d, pairs) by {
        assert Fold(pairs[0].0) in d;
      }
    }
  }

  /** A table whose source has two keys equal ignoring case, such as "Rock" and "rock", cannot be built. */
  lemma DuplicateKeyFails<V>(d: map<string, V>, pairs: seq<(string, V)>, i: nat, j: nat)
    requires i < j < |pairs| && EqualsIgnoreCase(pairs[i].0, pairs[j].0)
    ensures Adds(d, pairs).1.Some?
  {
    AddsSucceedsIff(d, pairs);
  }

  /**
   * The loop never overwrites: every entry already present keeps its value,
   * whether or not the loop completes; when it completes, the dictionary
   * holds exactly the old entries and every added pair.
   */
  lemma {:induction false} AddsContents<V>(d: map<string, V>, pairs: seq<(string, V)>)
    ensures forall k | k in d :: k in Adds(d, pairs).0 && Adds(d, pairs).0[k] == d[k]
    ensures Adds(d, pairs).1.None? ==>
      && (forall i | 0 <= i < |pairs| ::
            Fold(pairs[i].0) in Adds(d, pairs).0 && Adds(d, pairs).0[Fold(pairs[i].0)] == pairs[i].1)
      && (forall k | k in Adds(d, pairs).0 :: k in d || exists i | 0 <= i < |pairs| :: Fold(pairs[i].0) == k)
    decreases |pairs|
  {
    if pairs != [] && Fold(pairs[0].0) !in d {
      var k0 := Fold(pairs[0].0);
      var d' := d[k0 := pairs[0].1];
      var rest := pairs[1..];
      var r := Adds(d, pairs).0;
      assert Adds(d, pairs) == Adds(d', rest);
      AddsContents(d', rest);
      if Adds(d, pairs).1.None? {
        forall i | 0 <= i < |pairs|
          ensures Fold(pairs[i].0) in r && r[Fold(pairs[i].0)] == pairs[i].1
        {
          if i > 0 {
            assert pairs[i] == rest[i - 1];
          }
        }
        forall k | k in r
          ensures k in d || exists i | 0 <= i < |pairs| :: Fold(pairs[i].0) == k
        {
          if k !in d && k != k0 {
            var i :| 0 <= i < |rest| && Fold(rest[i].0) == k;
            assert pairs[i + 1] == rest[i];
          }
        }
      }
    }
  }

  /** `Adds` written as the loop the source runs. */
  method AddRange<V>(d: map<string, V>, pairs: seq<(string, V)>) returns (r: map<string, V>, failure: Option<Failure>)
    ensures (r, failure) == Adds(d, pairs)
  {
    r := d;
    var i := 0;
    while i < |pairs|
      invariant 0 <= i <= |pairs|
      invariant Adds(r, pairs[i..]) == Adds(d, pairs)
    {
      var (key, value) := pairs[i];
      if Fold(key) in r {
        return r, Some(DuplicateKey(key));
      }
      assert pairs[i..][1..] == pairs[i + 1..];
      r := r[Fold(key) := value];
      i := i + 1;
    }
    return r, None;
  }

  /**
   * The three static dictionaries of a resolver (`_genreAliases`,
   * `_subgenreAliases`, `_subgenreMappings`) and the `Read*` methods that
   * fill them from the parsed JSON files. Each file is the entry list of
   * the dictionary it deserializes to, in enumeration order: its keys are
   * distinct as written, but two of them may still differ only in case.
   */
  class MappingTables<M> {
    var genreAliases: map<string, string>
    var subgenreAliases: map<string, string>
    var subgenreMappings: map<string, Option<M>>

    /** The dictionaries start empty. */
    constructor ()
      ensures genreAliases == map[] && subgenreAliases == map[] && subgenreMappings == map[]
    {
      genreAliases := map[];
      subgenreAliases := map[];
      subgenreMappings := map[];
    }

    /** `ReadGenreAliases`: adds the entries of genreAliases.json. */
    method ReadGenreAliases(parsed: seq<(string, string)>) returns (failure: Option<Failure>)
      requires DistinctKeys(parsed)
      modifies this
      ensures (genreAliases, failure) == Adds(old(genreAliases), parsed)
      ensures subgenreAliases == old(subgenreAliases) && subgenreMappings == old(subgenreMappings)
    {
      genreAliases, failure := AddRange(genreAliases, parsed);
    }

    /** `ReadSubgenreAliases`: adds the entries of subgenreAliases.json. */
    method ReadSubgenreAliases(parsed: seq<(string, string)>) returns (failure: Option<Failure>)
      requires DistinctKeys(parsed)
      modifies this
      ensures (subgenreAliases, failure) == Adds(old(subgenreAliases), parsed)
      ensures genreAliases == old(genreAliases) && subgenreMappings == old(subgenreMappings)
    {
      subgenreAliases, failure := AddRange(subgenreAliases, parsed);
    }

    /** `ReadSubgenreMappings`: adds the entries of subgenreMappings.json. */
    method ReadSubgenreMappings(parsed: seq<(string, Option<M>)>) returns (failure: Option<Failure>)
      requires DistinctKeys(parsed)
      modifies this
      ensures (subgenreMappings, failure) == Adds(old(subgenreMappings), parsed)
      ensures genreAliases == old(genreAliases) && subgenreAliases == old(subgenreAliases)
    {
      subgenreMappings, failure := AddRange(subgenreMappings, parsed);
    }

    /**
     * The reading half of `LoadGenreMappings`: the three `Read*` calls in
     * order; an exception in one skips the ones after it.
     */
    method ReadAll(genreFile: seq<(string, string)>, subgenreFile: seq<(string, string)>,
                   mappingFile: seq<(string, Option<M>)>) returns (failure: Option<Failure>)
      requires DistinctKeys(genreFile) && DistinctKeys(subgenreFile) && DistinctKeys(mappingFile)
      modifies this
      ensures var (g, f1) := Adds(old(genreAliases), genreFile);
              var (s, f2) := Adds(old(subgenreAliases), subgenreFile);
              var (m, f3) := Adds(old(subgenreMappings), mappingFile);
              && genreAliases == g
              && subgenreAliases == (if f1.None? then s else old(subgenreAliases))
              && subgenreMappings == (if f1.None? && f2.None? then m else old(subgenreMappings))
              && failure == (if f1.Some? then f1 else if f2.Some? then f2 else f3)
    {
      failure := ReadGenreAliases(genreFile);
      if failure.Some? {
        return;
      }
      failure := ReadSubgenreAliases(subgenreFile);
      if failure.Some? {
        return;
      }
      failure := ReadSubgenreMappings(mappingFile);
    }
  }
}
