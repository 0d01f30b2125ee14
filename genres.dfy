/**
 * The older resolver, `Genres`: the same tables as the current one, other
 * precedence rules, and null (here `None`) instead of "" for an absent
 * subgenre. Its official-key reads use the indexer
 * `GENRE_LOCALIZATION_KEYS[...]`, which throws on a name that is not
 * official (`KeyNotFound`) or null (`ArgumentNull`).
 */
module Genres {
  import opened Wrappers
  import opened Text
  import opened GenreLists
  import opened Localization
  import opened Dictionaries
  import Genrelizer

  /** One entry of subgenreMappings.json as this resolver reads it: the owning genre and per-culture labels. */
  datatype SubgenreMapping = SubgenreMapping(genre: Option<string>, localizations: Option<map<string, string>>)

  type GenreTables = Tables<SubgenreMapping>

  /** `GENRE_LOCALIZATION_KEYS[name]`. */
  function KeyOf(name: Option<string>): Result<string, Failure> {
    match name
    case None => Err(ArgumentNull)
    case Some(n) =>
      match GenreLocalizationKey(n)
      case Some(k) => Ok(k)
      case None => Err(KeyNotFound(n))
  }

  /** `KeyFormat("Menu.MusicLibrary.Genre", GENRE_LOCALIZATION_KEYS[name])`. */
  function GenreLabel(loc: Localizer, name: Option<string>): Result<string, Failure> {
    var key :- KeyOf(name);
    Ok(loc.keyFormat(GenrePrefix, key))
  }

  /** A mapping's label for the active culture when it has one, else `fallback`. */
  function LocalizedOr(loc: Localizer, m: SubgenreMapping, fallback: string): string {
    if m.localizations.Some? && loc.cultureCode in m.localizations.value then m.localizations.value[loc.cultureCode]
    else fallback
  }

  /** `HandleLoneGenre`: resolves a single tag. */
  function HandleLoneGenre(loc: Localizer, t: GenreTables, rawGenre: string): (r: Result<Labels, Failure>)
    ensures r.Ok? ==> r.value.genre.Some?
  {
    var processedGenre := GetValueOrDefault(t.genreAliases, rawGenre, rawGenre);
    if IsOfficial(processedGenre) then
      Ok(Labels(Some(loc.keyFormat(GenrePrefix, GenreLocalizationKey(processedGenre).value)), None))
    else
      var subgenre := GetValueOrDefault(t.subgenreAliases, rawGenre, rawGenre);
      if ContainsKey(t.subgenreMappings, subgenre) then
        match t.subgenreMappings[Fold(subgenre)]
        case None => Err(NullReference)
        case Some(m) =>
          var display := LocalizedOr(loc, m, subgenre);
          var genre :- GenreLabel(loc, m.genre);
          Ok(Labels(Some(genre), Some(display)))
      else
        Ok(Labels(Some(loc.key(OtherKey)), Some(subgenre)))
  }

  /** The Magma branch of `HandleGenreSubgenrePair`, after the override `target` is found. */
  function MagmaLabels(loc: Localizer, t: GenreTables, target: MagmaTarget): Result<Labels, Failure> {
    var genre := loc.keyFormat(GenrePrefix, LocalizationKeyTable(target.genre).GetOr(""));
    match target.subgenre
    case None => Ok(Labels(Some(genre), None))
    case Some(s) =>
      var m :- Index(t.subgenreMappings, s);
      Ok(Labels(Some(genre), Some(if m.Some? then LocalizedOr(loc, m.value, s) else s)))
  }

  /** The collapse test: the subgenre tag has a genre alias, and it is the genre tag's genre alias. */
  predicate Collapses(t: GenreTables, rawGenre: string, rawSubgenre: string) {
    ContainsKey(t.genreAliases, rawSubgenre) &&
    t.genreAliases[Fold(rawSubgenre)] == GetValueOrDefault(t.genreAliases, rawGenre, rawGenre)
  }

  /**
   * The genre established from the genre tag: the label of the genre tag
   * read as a subgenre when that is mapped, else its genre alias's label
   * when official, else none yet.
   */
  function GenreFromGenreTag(loc: Localizer, t: GenreTables, rawGenre: string): Result<Option<string>, Failure> {
    var aliasedGenre := GetValueOrDefault(t.genreAliases, rawGenre, rawGenre);
    var genreAsSubgenre := GetValueOrDefault(t.subgenreAliases, rawGenre, rawGenre);
    if ContainsKey(t.subgenreMappings, genreAsSubgenre) then
      match t.subgenreMappings[Fold(genreAsSubgenre)]
      case None => Err(NullReference)
      case Some(m) =>
        var display :- GenreLabel(loc, m.genre);
        Ok(Some(display))
    else if IsOfficial(aliasedGenre) then Ok(Some(loc.keyFormat(GenrePrefix, GenreLocalizationKey(aliasedGenre).value)))
    else Ok(None)
  }

  /**
   * The genre taken from a subgenre mapping when the genre tag gave none:
   * the mapping genre's localization key is itself looked up as a genre
   * name before it is localized.
   */
  function GenreFromMapping(loc: Localizer, m: SubgenreMapping): Result<string, Failure> {
    var key :- KeyOf(m.genre);
    GenreLabel(loc, Some(key))
  }

  /** What `HandleGenreSubgenrePair` returns: the Magma override, else the collapse, else the tables. */
  function ResolvePair(loc: Localizer, t: GenreTables, rawGenre: string, rawSubgenre: string): Result<Labels, Failure> {
    var magma := MagmaLookup((rawGenre, rawSubgenre));
    if magma.Some? then MagmaLabels(loc, t, magma.value)
    else if Collapses(t, rawGenre, rawSubgenre) then
      HandleLoneGenre(loc, t, GetValueOrDefault(t.genreAliases, rawGenre, rawGenre))
    else ResolveByTables(loc, t, rawGenre, rawSubgenre)
  }

  /** The rest of `HandleGenreSubgenrePair`: the genre from the genre tag, then the subgenre mapping. */
  function ResolveByTables(loc: Localizer, t: GenreTables, rawGenre: string, rawSubgenre: string): Result<Labels, Failure> {
    var genre :- GenreFromGenreTag(loc, t, rawGenre);
    var aliasedSubgenre := GetValueOrDefault(t.subgenreAliases, rawSubgenre, rawSubgenre);
    if ContainsKey(t.subgenreMappings, aliasedSubgenre) then
      match t.subgenreMappings[Fold(aliasedSubgenre)]
      case None => Err(NullReference)
      case Some(m) =>
        var g :- if genre.Some? then Ok(genre.value) else GenreFromMapping(loc, m);
        Ok(Labels(Some(g), Some(LocalizedOr(loc, m, aliasedSubgenre))))
    else
      Ok(Labels(Some(genre.GetOr(loc.key(OtherKey))), Some(aliasedSubgenre)))
  }

  /** `HandleGenreSubgenrePair`, step by step as the source assigns its locals. */
  method HandleGenreSubgenrePair(loc: Localizer, t: GenreTables, rawGenre: string, rawSubgenre: string)
    returns (r: Result<Labels, Failure>)
    ensures r == ResolvePair(loc, t, rawGenre, rawSubgenre)
  {
    var genre: Option<string> := None;
    var subgenre: Option<string> := None;

    var magma := MagmaLookup((rawGenre, rawSubgenre));
    if magma.Some? {
      var target := magma.value;
      genre := Some(loc.keyFormat(GenrePrefix, LocalizationKeyTable(target.genre).GetOr("")));
      if target.subgenre.Some? {
        var s := target.subgenre.value;
        var entry := Index(t.subgenreMappings, s);
        if entry.Err? {
          return Err(entry.error);
        }
        var magmaSubgenreMapping := entry.value;
        if magmaSubgenreMapping.Some? && magmaSubgenreMapping.value.localizations.Some? {
          subgenre := Some(LocalizedOr(loc, magmaSubgenreMapping.value, s));
        } else {
          subgenre := Some(s);
        }
      } else {
        subgenre := target.subgenre;
      }
      return Ok(Labels(genre, subgenre));
    }

    var aliasedGenre := GetValueOrDefault(t.genreAliases, rawGenre, rawGenre);
    var subgenreAsGenre := if ContainsKey(t.genreAliases, rawSubgenre) then Some(t.genreAliases[Fold(rawSubgenre)]) else None;
    if subgenreAsGenre == Some(aliasedGenre) {
      return HandleLoneGenre(loc, t, aliasedGenre);
    }

    if IsOfficial(aliasedGenre) {
      genre := Some(loc.keyFormat(GenrePrefix, GenreLocalizationKey(aliasedGenre).value));
    }

    var genreAsSubgenre := GetValueOrDefault(t.subgenreAliases, rawGenre, rawGenre);
    if ContainsKey(t.subgenreMappings, genreAsSubgenre) {
      var surrogate := t.subgenreMappings[Fold(genreAsSubgenre)];
      if surrogate.None? {
        return Err(NullReference);
      }
      var display := GenreLabel(loc, surrogate.value.genre);
      if display.Err? {
        return Err(display.error);
      }
      genre := Some(display.value);
    }

    var aliasedSubgenre := GetValueOrDefault(t.subgenreAliases, rawSubgenre, rawSubgenre);
    if ContainsKey(t.subgenreMappings, aliasedSubgenre) {
      var mapping := t.subgenreMappings[Fold(aliasedSubgenre)];
      if mapping.None? {
        return Err(NullReference);
      }
      if genre.None? {
        var genreFromSubgenre := KeyOf(mapping.value.genre);
        if genreFromSubgenre.Err? {
          return Err(genreFromSubgenre.error);
        }
        var display := GenreLabel(loc, Some(genreFromSubgenre.value));
        if display.Err? {
          return Err(display.error);
        }
        genre := Some(display.value);
      }
      if mapping.value.localizations.Some? {
        subgenre := Some(LocalizedOr(loc, mapping.value, aliasedSubgenre));
      } else {
        subgenre := Some(aliasedSubgenre);
      }
    } else {
      subgenre := Some(aliasedSubgenre);
      if genre.None? {
        genre := Some(loc.key(OtherKey));
      }
    }
    return Ok(Labels(genre, subgenre));
  }

  /** `GetGenresOrDefault`: the entry point; null and "" both count as absent. */
  method GetGenresOrDefault(loc: Localizer, t: GenreTables, rawGenre: Option<string>, rawSubgenre: Option<string>)
    returns (r: Result<Labels, Failure>)
    ensures IsNullOrEmpty(rawGenre) && IsNullOrEmpty(rawSubgenre) ==> r == Ok(Labels(None, None))
    ensures IsNullOrEmpty(rawGenre) && !IsNullOrEmpty(rawSubgenre) ==> r == HandleLoneGenre(loc, t, rawSubgenre.value)
    ensures !IsNullOrEmpty(rawGenre) && IsNullOrEmpty(rawSubgenre) ==> r == HandleLoneGenre(loc, t, rawGenre.value)
    ensures !IsNullOrEmpty(rawGenre) && !IsNullOrEmpty(rawSubgenre) ==>
      r == ResolvePair(loc, t, rawGenre.value, rawSubgenre.value)
  {
    if IsNullOrEmpty(rawGenre) {
      if IsNullOrEmpty(rawSubgenre) {
        return Ok(Labels(None, None));
      }
      return HandleLoneGenre(loc, t, rawSubgenre.value);
    }
    if IsNullOrEmpty(rawSubgenre) {
      return HandleLoneGenre(loc, t, rawGenre.value);
    }
    r := HandleGenreSubgenrePair(loc, t, rawGenre.value, rawSubgenre.value);
  }

  // Properties of the official-key reads

  /**
   * `GENRE_LOCALIZATION_KEYS[name]` agrees with `ContainsKey` and
   * `GetValueOrDefault`: it gives the key exactly for an official name,
   * throws ArgumentNull for null and KeyNotFound for any other name.
   */
  lemma KeyOfAgreesWithLookups(name: Option<string>)
    ensures KeyOf(name).Ok? <==> name.Some? && IsOfficial(name.value)
    ensures KeyOf(name).Ok? ==> GenreLocalizationKey(name.value) == Some(KeyOf(name).value)
    ensures name.None? ==> KeyOf(name) == Err(ArgumentNull)
    ensures name.Some? && !IsOfficial(name.value) ==> KeyOf(name) == Err(KeyNotFound(name.value))
  {
  }

  /** Names equal ignoring case read the same key. */
  lemma KeyOfIgnoresCase(a: string, b: string)
    requires EqualsIgnoreCase(a, b)
    ensures KeyOf(Some(a)).Ok? == KeyOf(Some(b)).Ok?
    ensures KeyOf(Some(a)).Ok? ==> KeyOf(Some(a)).value == KeyOf(Some(b)).value
  {
  }

  /**
   * The key read of a Magma override genre never throws, so the Magma
   * branch's indexer always finds its key.
   */
  lemma MagmaGenresHaveKeys(key: (string, string))
    requires MagmaLookup(key).Some?
    ensures KeyOf(Some(MagmaLookup(key).value.genre)) ==
      Ok(LocalizationKeyTable(MagmaLookup(key).value.genre).value)
  {
    FoldLower(MagmaLookup(key).value.genre);
  }

  /**
   * The two resolvers choose a mapping's subgenre label alike: the active
   * culture's localization when there is one; they differ only in the
   * fallback, `capitalized` for the current one and the caller's string here.
   */
  lemma LocalizedOrAgreesWithCurrentResolver(loc: Localizer, m: Genrelizer.SubgenreMapping)
    ensures LocalizedOr(loc, SubgenreMapping(m.genre, m.localizations), m.capitalized) ==
      Genrelizer.MappingSubgenre(loc, m)
  {
  }

  // Properties of the lone-tag resolution

  /** A tag whose genre alias is official resolves to that genre with a null subgenre. */
  lemma LoneOfficialGenre(loc: Localizer, t: GenreTables, rawGenre: string)
    requires IsOfficial(GetValueOrDefault(t.genreAliases, rawGenre, rawGenre))
    ensures var key := GenreLocalizationKey(GetValueOrDefault(t.genreAliases, rawGenre, rawGenre)).value;
      HandleLoneGenre(loc, t, rawGenre) == Ok(Labels(Some(loc.keyFormat(GenrePrefix, key)), None))
  {
  }

  /**
   * A mapped tag gets the mapping's label for the active culture, or its
   * subgenre alias when there is none; it resolves exactly when the
   * mapping's genre is an official name.
   */
  lemma LoneMappedSubgenre(loc: Localizer, t: GenreTables, rawGenre: string, m: SubgenreMapping)
    requires !IsOfficial(GetValueOrDefault(t.genreAliases, rawGenre, rawGenre))
    requires GetValueOrDefault(t.subgenreMappings, GetValueOrDefault(t.subgenreAliases, rawGenre, rawGenre), None) == Some(m)
    ensures var r := HandleLoneGenre(loc, t, rawGenre);
      var subgenre := GetValueOrDefault(t.subgenreAliases, rawGenre, rawGenre);
      && (r.Ok? <==> m.genre.Some? && IsOfficial(m.genre.value))
      && (r.Ok? ==> r.value.genre == Some(loc.keyFormat(GenrePrefix, GenreLocalizationKey(m.genre.value).value)))
      && (r.Ok? && m.localizations.Some? && loc.cultureCode in m.localizations.value ==>
            r.value.subgenre == Some(m.localizations.value[loc.cultureCode]))
      && (r.Ok? && (m.localizations.None? || loc.cultureCode !in m.localizations.value) ==>
            r.value.subgenre == Some(subgenre))
  {
  }

  /** An unrecognized tag is filed under Other with its subgenre alias kept as is. */
  lemma LoneUnrecognized(loc: Localizer, t: GenreTables, rawGenre: string)
    requires !IsOfficial(GetValueOrDefault(t.genreAliases, rawGenre, rawGenre))
    requires !ContainsKey(t.subgenreMappings, GetValueOrDefault(t.subgenreAliases, rawGenre, rawGenre))
    ensures HandleLoneGenre(loc, t, rawGenre) ==
      Ok(Labels(Some(loc.key(OtherKey)), Some(GetValueOrDefault(t.subgenreAliases, rawGenre, rawGenre))))
  {
  }

  // Properties of the pair resolution

  /**
   * A Magma pair is resolved from its override alone, without the aliases:
   * the genre is the override genre's official label; the subgenre is null
   * for a null override subgenre, else the mapping's label for the active
   * culture, falling back to the override subgenre itself; an override
   * subgenre missing from the mappings throws.
   */
  lemma MagmaOverride(loc: Localizer, t: GenreTables, rawGenre: string, rawSubgenre: string,
                      genreAliases: map<string, string>, subgenreAliases: map<string, string>)
    requires MagmaLookup((rawGenre, rawSubgenre)).Some?
    ensures var target := MagmaLookup((rawGenre, rawSubgenre)).value;
      var r := ResolvePair(loc, t, rawGenre, rawSubgenre);
      && r == ResolvePair(loc, t.(genreAliases := genreAliases, subgenreAliases := subgenreAliases), rawGenre, rawSubgenre)
      && IsOfficial(target.genre)
      && (r.Ok? ==> r.value.genre == Some(loc.keyFormat(GenrePrefix, GenreLocalizationKey(target.genre).value)))
      && (target.subgenre.None? ==> r.Ok? && r.value.subgenre == None)
      && (target.subgenre.Some? ==>
            var s := target.subgenre.value;
            && (r.Err? <==> !ContainsKey(t.subgenreMappings, s))
            && (r.Err? ==> r.error == KeyNotFound(s))
            && (r.Ok? ==>
                  var m := t.subgenreMappings[Fold(s)];
                  if m.Some? && m.value.localizations.Some? && loc.cultureCode in m.value.localizations.value
                  then r.value.subgenre == Some(m.value.localizations.value[loc.cultureCode])
                  else r.value.subgenre == Some(s)))
  {
    FoldLower(MagmaLookup((rawGenre, rawSubgenre)).value.genre);
  }

  /**
   * The pair collapses to its genre alias alone exactly when the subgenre
   * tag's genre alias is that alias; otherwise it goes through the tables.
   * A subgenre tag without a genre alias never collapses.
   */
  lemma CollapseOnGenreAlias(loc: Localizer, t: GenreTables, rawGenre: string, rawSubgenre: string)
    requires MagmaLookup((rawGenre, rawSubgenre)).None?
    ensures Collapses(t, rawGenre, rawSubgenre) ==>
      ResolvePair(loc, t, rawGenre, rawSubgenre) == HandleLoneGenre(loc, t, GetValueOrDefault(t.genreAliases, rawGenre, rawGenre))
    ensures !Collapses(t, rawGenre, rawSubgenre) ==>
      ResolvePair(loc, t, rawGenre, rawSubgenre) == ResolveByTables(loc, t, rawGenre, rawSubgenre)
    ensures !ContainsKey(t.genreAliases, rawSubgenre) ==> !Collapses(t, rawGenre, rawSubgenre)
  {
  }

  /**
   * Unlike the current resolver, a repeated official genre without aliases
   * is not collapsed: ("rock", "rock") keeps "rock" as its subgenre when it
   * is not a mapping key.
   */
  lemma RepeatedGenreKept(loc: Localizer, t: GenreTables, rawGenre: string)
    requires MagmaLookup((rawGenre, rawGenre)).None?
    requires IsOfficial(rawGenre) && !ContainsKey(t.genreAliases, rawGenre)
    requires !ContainsKey(t.subgenreAliases, rawGenre) && !ContainsKey(t.subgenreMappings, rawGenre)
    ensures ResolvePair(loc, t, rawGenre, rawGenre) ==
      Ok(Labels(Some(loc.keyFormat(GenrePrefix, GenreLocalizationKey(rawGenre).value)), Some(rawGenre)))
  {
  }

  /**
   * The genre tag read as a subgenre, when mapped, decides the genre, even
   * over an official genre alias.
   */
  lemma GenreTagAsSubgenreOverrides(loc: Localizer, t: GenreTables, rawGenre: string, m: SubgenreMapping)
    requires GetValueOrDefault(t.subgenreMappings, GetValueOrDefault(t.subgenreAliases, rawGenre, rawGenre), None) == Some(m)
    ensures var r := GenreFromGenreTag(loc, t, rawGenre);
      && (r.Ok? <==> m.genre.Some? && IsOfficial(m.genre.value))
      && (r.Ok? ==> r.value == Some(loc.keyFormat(GenrePrefix, GenreLocalizationKey(m.genre.value).value)))
  {
  }

  /** Without such a mapping, the genre is the official genre alias's label, or none. */
  lemma GenreTagOfficial(loc: Localizer, t: GenreTables, rawGenre: string)
    requires !ContainsKey(t.subgenreMappings, GetValueOrDefault(t.subgenreAliases, rawGenre, rawGenre))
    ensures var aliasedGenre := GetValueOrDefault(t.genreAliases, rawGenre, rawGenre);
      GenreFromGenreTag(loc, t, rawGenre) ==
        Ok(if IsOfficial(aliasedGenre) then Some(loc.keyFormat(GenrePrefix, GenreLocalizationKey(aliasedGenre).value)) else None)
  {
  }

  /**
   * An unrecognized subgenre is kept as its alias, not sanitized, and the
   * genre becomes Other only when the genre tag gave none.
   */
  lemma UnrecognizedSubgenre(loc: Localizer, t: GenreTables, rawGenre: string, rawSubgenre: string)
    requires !ContainsKey(t.subgenreMappings, GetValueOrDefault(t.subgenreAliases, rawSubgenre, rawSubgenre))
    ensures var r := ResolveByTables(loc, t, rawGenre, rawSubgenre);
      var genre := GenreFromGenreTag(loc, t, rawGenre);
      && (r.Ok? <==> genre.Ok?)
      && (r.Ok? ==> r.value.subgenre == Some(GetValueOrDefault(t.subgenreAliases, rawSubgenre, rawSubgenre)))
      && (genre == Ok(None) ==> r.value.genre == Some(loc.key(OtherKey)))
      && (genre.Ok? && genre.value.Some? ==> r.value.genre == genre.value)
  {
  }

  /**
   * A mapped subgenre gets the mapping's label for the active culture, or
   * its alias; the genre tag's genre wins over the mapping's.
   */
  lemma MappedSubgenre(loc: Localizer, t: GenreTables, rawGenre: string, rawSubgenre: string, m: SubgenreMapping)
    requires GetValueOrDefault(t.subgenreMappings, GetValueOrDefault(t.subgenreAliases, rawSubgenre, rawSubgenre), None) == Some(m)
    ensures var r := ResolveByTables(loc, t, rawGenre, rawSubgenre);
      var genre := GenreFromGenreTag(loc, t, rawGenre);
      var aliasedSubgenre := GetValueOrDefault(t.subgenreAliases, rawSubgenre, rawSubgenre);
      && (r.Ok? ==> r.value.subgenre == Some(LocalizedOr(loc, m, aliasedSubgenre)))
      && (genre.Ok? && genre.value.Some? ==> r == Ok(Labels(genre.value, Some(LocalizedOr(loc, m, aliasedSubgenre)))))
      && (genre == Ok(None) ==> r.Ok? == GenreFromMapping(loc, m).Ok?)
      && (genre == Ok(None) && r.Ok? ==> r.value.genre == Some(GenreFromMapping(loc, m).value))
  {
  }

  /**
   * Taking the genre from a mapping looks the mapping genre's localization
   * key up once more as a genre name: this succeeds when the key is itself
   * a name ignoring case, and throws otherwise.
   */
  lemma GenreFromMappingLooksUpKey(loc: Localizer, m: SubgenreMapping)
    requires m.genre.Some? && IsOfficial(m.genre.value)
    ensures var key := GenreLocalizationKey(m.genre.value).value;
      && (IsOfficial(key) ==> GenreFromMapping(loc, m) == Ok(loc.keyFormat(GenrePrefix, GenreLocalizationKey(key).value)))
      && (!IsOfficial(key) ==> GenreFromMapping(loc, m) == Err(KeyNotFound(key)))
  {
  }

  /**
   * Hence a subgenre owned by "ambient/drone" (localization key
   * "AmbientDrone", no genre name) throws when the genre tag gave no genre.
   */
  lemma AmbientDroneMappingThrows(loc: Localizer, m: SubgenreMapping)
    requires m.genre.Some? && Fold(m.genre.value) == AmbientDrone
    ensures GenreFromMapping(loc, m) == Err(KeyNotFound("AmbientDrone"))
  {
    var key := GenreLocalizationKey(m.genre.value).value;
    assert key == "AmbientDrone";
    AmbientDroneKeyIsNoName(key);
  }

  lemma AmbientDroneKeyIsNoName(k: string)
    requires k == "AmbientDrone"
    ensures !IsOfficial(k)
  {
    assert Fold(k) == "ambientdrone" by {
      assert |Fold(k)| == 12;
      forall i | 0 <= i < 12
        ensures Fold(k)[i] == "ambientdrone"[i]
      {
      }
    }
  }

  /** A localization key that folds to its own genre name, like "Rock", survives the second lookup. */
  lemma RockMappingResolves(loc: Localizer, m: SubgenreMapping)
    requires m.genre.Some? && Fold(m.genre.value) == Rock
    ensures GenreFromMapping(loc, m) == Ok(loc.keyFormat(GenrePrefix, "Rock"))
  {
    var key := GenreLocalizationKey(m.genre.value).value;
    assert key == "Rock";
    RockKeyIsName(key);
  }

  lemma RockKeyIsName(k: string)
    requires k == "Rock"
    ensures GenreLocalizationKey(k) == Some("Rock")
  {
    assert Fold(k) == "rock" by {
      assert |Fold(k)| == 4;
      forall i | 0 <= i < 4
        ensures Fold(k)[i] == "rock"[i]
      {
      }
    }
  }
}
