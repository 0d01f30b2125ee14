/**
 * The current resolver, `Genrelizer`: turns a song's raw (genre, subgenre)
 * tags into a localized genre label and a subgenre label ("" when there is
 * none), through the Magma overrides, the alias tables and the subgenre
 * mappings.
 *
 * The resolver's exceptions are results: `Err(KeyNotFound(..))` for the
 * `_subgenreMappings[...]` indexer on a missing key, `Err(NullReference)`
 * for a member read through a null mapping.
 */
module Genrelizer {
  import opened Wrappers
  import opened Text
  import opened GenreLists
  import opened Localization
  import opened Dictionaries

  /**
   * One entry of subgenreMappings.json: the owning genre (null when the
   * file leaves it out), the capitalized display label, and per-culture
   * display labels.
   */
  datatype SubgenreMapping = SubgenreMapping(
    genre: Option<string>,
    capitalized: string,
    localizations: Option<map<string, string>>)

  type GenreTables = Tables<SubgenreMapping>

  /** `GetLocalizedGenre`: a genre name's label; a missing name gets the "unknown genre" label. */
  function GetLocalizedGenre(loc: Localizer, genre: Option<string>): string {
    match genre
    case None => loc.key(UnknownGenreKey)
    case Some(g) => loc.keyIn(GenrePrefix, GenreLocalizationKey(g))
  }

  /** `SubgenreMapping.Genre`: the owning genre's localized label. */
  function MappingGenre(loc: Localizer, m: SubgenreMapping): string {
    GetLocalizedGenre(loc, m.genre)
  }

  /** `SubgenreMapping.Subgenre`: the display label for the active culture. */
  function MappingSubgenre(loc: Localizer, m: SubgenreMapping): (r: string)
    ensures r == m.capitalized || (m.localizations.Some? && r in m.localizations.value.Values)
  {
    match m.localizations
    case None => m.capitalized
    case Some(l) => if loc.cultureCode in l then l[loc.cultureCode] else m.capitalized
  }

  /** `_sanitize`: trims, then title-cases for the active culture. */
  function Sanitize(loc: Localizer, s: string): string {
    loc.titleCase(Trim(s))
  }

  /** The label of an official genre, localized through its key. */
  function OfficialLabel(loc: Localizer, name: string): string {
    loc.keyIn(GenrePrefix, GenreLocalizationKey(name))
  }

  /** `HandleLoneGenre`: resolves a single tag. */
  function HandleLoneGenre(loc: Localizer, t: GenreTables, rawGenre: string): (r: Result<Labels, Failure>)
    ensures r.Ok? ==> r.value.genre.Some? && r.value.subgenre.Some?
    ensures r.Err? ==> r.error == NullReference
  {
    var processedGenre := GetValueOrDefault(t.genreAliases, rawGenre, rawGenre);
    if IsOfficial(processedGenre) then
      Ok(Labels(Some(OfficialLabel(loc, processedGenre)), Some("")))
    else
      var subgenre := GetValueOrDefault(t.subgenreAliases, rawGenre, rawGenre);
      if ContainsKey(t.subgenreMappings, subgenre) then
        match t.subgenreMappings[Fold(subgenre)]
        case None => Err(NullReference)
        case Some(m) => Ok(Labels(Some(OfficialLabel(loc, MappingGenre(loc, m))), Some(MappingSubgenre(loc, m))))
      else
        Ok(Labels(Some(loc.key(OtherKey)), Some(subgenre)))
  }

  /** The Magma branch of `HandleGenreSubgenrePair`, after the override `target` is found. */
  function MagmaLabels(loc: Localizer, t: GenreTables, target: MagmaTarget): Result<Labels, Failure> {
    var genre := OfficialLabel(loc, target.genre);
    match target.subgenre
    case None => Ok(Labels(Some(genre), Some("")))
    case Some(s) =>
      if !ContainsKey(t.subgenreMappings, s) then Err(KeyNotFound(s))
      else match t.subgenreMappings[Fold(s)]
        case Some(m) => Ok(Labels(Some(genre), Some(MappingSubgenre(loc, m))))
        case None => Ok(Labels(Some(genre), Some(Sanitize(loc, s))))
  }

  /** The three duplicate tests of `HandleGenreSubgenrePair`. */
  predicate IsDuplicatePair(loc: Localizer, t: GenreTables, rawGenre: string, rawSubgenre: string) {
    || Sanitize(loc, rawGenre) == Sanitize(loc, rawSubgenre)
    || GetValueOrDefault(t.genreAliases, rawGenre, rawGenre) == GetValueOrDefault(t.genreAliases, rawSubgenre, rawSubgenre)
    || GetValueOrDefault(t.subgenreAliases, rawGenre, rawGenre) == GetValueOrDefault(t.subgenreAliases, rawSubgenre, rawSubgenre)
  }

  /** The genre established from the genre tag alone: its label if official, else "". */
  function TentativeGenre(loc: Localizer, t: GenreTables, rawGenre: string): string {
    var aliasedGenre := GetValueOrDefault(t.genreAliases, rawGenre, rawGenre);
    if IsOfficial(aliasedGenre) then OfficialLabel(loc, aliasedGenre) else ""
  }

  /**
   * `HandleGenreSubgenrePair`: resolves two non-empty tags, first through
   * the Magma overrides, then through the tables.
   */
  function HandleGenreSubgenrePair(loc: Localizer, t: GenreTables, rawGenre: string, rawSubgenre: string)
    : (r: Result<Labels, Failure>)
  {
    var magma := MagmaLookup((rawGenre, rawSubgenre));
    if magma.Some? then MagmaLabels(loc, t, magma.value) else ResolveByTables(loc, t, rawGenre, rawSubgenre)
  }

  /**
   * The part of `HandleGenreSubgenrePair` after the Magma test: aliases,
   * duplicate collapse, the "other" branch and the mappings. The C# branch
   * taken when the subgenre has no genre alias value (a null alias) cannot
   * arise, as alias values are strings, and is not written here.
   */
  function ResolveByTables(loc: Localizer, t: GenreTables, rawGenre: string, rawSubgenre: string)
    : Result<Labels, Failure>
  {
    var aliasedGenre := GetValueOrDefault(t.genreAliases, rawGenre, rawGenre);
    var aliasedSubgenre := GetValueOrDefault(t.subgenreAliases, rawSubgenre, rawSubgenre);
    var subgenreAsGenre := GetValueOrDefault(t.genreAliases, rawSubgenre, rawSubgenre);
    if IsDuplicatePair(loc, t, rawGenre, rawSubgenre) then HandleLoneGenre(loc, t, aliasedGenre)
    else
      var genre := TentativeGenre(loc, t, rawGenre);
      var sanitizedSubgenre := Sanitize(loc, aliasedSubgenre);
      if aliasedGenre == Other then Ok(Labels(Some(subgenreAsGenre), Some("")))
      else if ContainsKey(t.subgenreMappings, sanitizedSubgenre) then
        var m := GetValueOrDefault(t.subgenreMappings, sanitizedSubgenre, None);
        Ok(Labels(Some(genre), if m.Some? then Some(MappingSubgenre(loc, m.value)) else None))
      else if genre == "" then
        var genreAsAliasedSubgenre := GetValueOrDefault(t.subgenreAliases, rawGenre, rawGenre);
        if ContainsKey(t.subgenreMappings, genreAsAliasedSubgenre) then
          var m := GetValueOrDefault(t.subgenreMappings, genreAsAliasedSubgenre, None);
          Ok(Labels(if m.Some? then Some(MappingGenre(loc, m.value)) else None, Some(sanitizedSubgenre)))
        else
          Ok(Labels(Some(loc.key(OtherKey)), Some(sanitizedSubgenre)))
      else
        Ok(Labels(Some(genre), Some(sanitizedSubgenre)))
  }

  /** `GetGenresOrDefault`: the entry point; null and "" both count as absent. */
  function GetGenresOrDefault(loc: Localizer, t: GenreTables, rawGenre: Option<string>, rawSubgenre: Option<string>)
    : (r: Result<Labels, Failure>)
    ensures IsNullOrEmpty(rawGenre) && IsNullOrEmpty(rawSubgenre) ==>
      r == Ok(Labels(Some(loc.key(UnknownGenreKey)), Some("")))
    ensures IsNullOrEmpty(rawGenre) && !IsNullOrEmpty(rawSubgenre) ==> r == HandleLoneGenre(loc, t, rawSubgenre.value)
    ensures !IsNullOrEmpty(rawGenre) && IsNullOrEmpty(rawSubgenre) ==> r == HandleLoneGenre(loc, t, rawGenre.value)
    ensures !IsNullOrEmpty(rawGenre) && !IsNullOrEmpty(rawSubgenre) ==>
      r == HandleGenreSubgenrePair(loc, t, rawGenre.value, rawSubgenre.value)
  {
    if IsNullOrEmpty(rawGenre) then
      if IsNullOrEmpty(rawSubgenre) then Ok(Labels(Some(loc.key(UnknownGenreKey)), Some("")))
      else HandleLoneGenre(loc, t, rawSubgenre.value)
    else if IsNullOrEmpty(rawSubgenre) then HandleLoneGenre(loc, t, rawGenre.value)
    else HandleGenreSubgenrePair(loc, t, rawGenre.value, rawSubgenre.value)
  }

  // Properties of the lone-tag resolution

  /**
   * The display label depends on the localizer only through the culture
   * code, and a localization for another culture never shows.
   */
  lemma MappingSubgenreCultureOnly(loc: Localizer, loc': Localizer, m: SubgenreMapping, culture: string, text: string)
    requires loc.cultureCode == loc'.cultureCode
    ensures MappingSubgenre(loc, m) == MappingSubgenre(loc', m)
    ensures culture != loc.cultureCode ==>
      MappingSubgenre(loc, m.(localizations := Some(m.localizations.GetOr(map[])[culture := text]))) ==
        MappingSubgenre(loc, m)
  {
  }

  /** A genre name's label depends on the name only up to case. */
  lemma LocalizedGenreIgnoresCase(loc: Localizer, a: string, b: string)
    requires EqualsIgnoreCase(a, b)
    ensures GetLocalizedGenre(loc, Some(a)) == GetLocalizedGenre(loc, Some(b))
  {
  }

  /** Surrounding white space does not change a sanitized string. */
  lemma SanitizeIgnoresSurroundingWhiteSpace(loc: Localizer, s: string, pre: string, post: string)
    requires forall i | 0 <= i < |pre| :: IsWhiteSpace(pre[i])
    requires forall i | 0 <= i < |post| :: IsWhiteSpace(post[i])
    ensures Sanitize(loc, pre + s + post) == Sanitize(loc, s)
  {
    TrimIgnoresSurroundingWhiteSpace(s, pre, post);
  }

  /**
   * A tag whose genre alias is official resolves to that genre with the
   * empty subgenre; the subgenre alias and the mappings are not consulted.
   */
  lemma LoneOfficialGenre(loc: Localizer, t: GenreTables, rawGenre: string)
    requires IsOfficial(GetValueOrDefault(t.genreAliases, rawGenre, rawGenre))
    ensures HandleLoneGenre(loc, t, rawGenre) ==
      Ok(Labels(Some(OfficialLabel(loc, GetValueOrDefault(t.genreAliases, rawGenre, rawGenre))), Some("")))
    ensures forall sa, sm ::
      HandleLoneGenre(loc, t, rawGenre) == HandleLoneGenre(loc, t.(subgenreAliases := sa, subgenreMappings := sm), rawGenre)
  {
  }

  /**
   * An official genre name without an alias resolves to its own label
   * whatever the case of its letters ("ROCK" gives the label of "rock").
   */
  lemma LoneCanonicalGenre(loc: Localizer, t: GenreTables, rawGenre: string)
    requires LocalizationKeyTable(Fold(rawGenre)).Some? && !ContainsKey(t.genreAliases, rawGenre)
    ensures HandleLoneGenre(loc, t, rawGenre) ==
      Ok(Labels(Some(loc.keyIn(GenrePrefix, LocalizationKeyTable(Fold(rawGenre)))), Some("")))
  {
  }

  /**
   * When the genre alias is not official, the result does not depend on it:
   * the subgenre alias is taken of the raw tag, not of its genre alias.
   */
  lemma LoneIgnoresUnofficialGenreAlias(loc: Localizer, t: GenreTables, rawGenre: string, alias: string)
    requires !IsOfficial(GetValueOrDefault(t.genreAliases, rawGenre, rawGenre)) && !IsOfficial(alias)
    ensures HandleLoneGenre(loc, t, rawGenre) ==
      HandleLoneGenre(loc, t.(genreAliases := t.genreAliases[Fold(rawGenre) := alias]), rawGenre)
  {
  }

  /**
   * A mapped tag gets the mapping's display label; its genre is the label of
   * the mapping's already localized genre label, looked up once more as a
   * genre name, so it is `Key(prefix, null)` when that label is no official
   * name.
   */
  lemma LoneMappedSubgenre(loc: Localizer, t: GenreTables, rawGenre: string, m: SubgenreMapping)
    requires !IsOfficial(GetValueOrDefault(t.genreAliases, rawGenre, rawGenre))
    requires GetValueOrDefault(t.subgenreMappings, GetValueOrDefault(t.subgenreAliases, rawGenre, rawGenre), None) == Some(m)
    ensures HandleLoneGenre(loc, t, rawGenre) ==
      Ok(Labels(Some(loc.keyIn(GenrePrefix, GenreLocalizationKey(MappingGenre(loc, m)))), Some(MappingSubgenre(loc, m))))
    ensures !IsOfficial(MappingGenre(loc, m)) ==>
      HandleLoneGenre(loc, t, rawGenre).value.genre == Some(loc.keyIn(GenrePrefix, None))
  {
  }

  /** An unrecognized tag is filed under Other with its subgenre alias kept as is, not sanitized. */
  lemma LoneUnrecognized(loc: Localizer, t: GenreTables, rawGenre: string)
    requires !IsOfficial(GetValueOrDefault(t.genreAliases, rawGenre, rawGenre))
    requires !ContainsKey(t.subgenreMappings, GetValueOrDefault(t.subgenreAliases, rawGenre, rawGenre))
    ensures HandleLoneGenre(loc, t, rawGenre) ==
      Ok(Labels(Some(loc.key(OtherKey)), Some(GetValueOrDefault(t.subgenreAliases, rawGenre, rawGenre))))
  {
  }

  // Properties of the pair resolution

  /**
   * A Magma pair is resolved from its override alone: the genre is the
   * override genre's official label, the aliases are not consulted, a null
   * override subgenre gives "", an override subgenre missing from the
   * mappings throws rather than falling back to sanitizing, and a mapped
   * one gives the mapping's display label, or its sanitized self for a
   * null mapping.
   */
  lemma MagmaOverride(loc: Localizer, t: GenreTables, rawGenre: string, rawSubgenre: string,
                      genreAliases: map<string, string>, subgenreAliases: map<string, string>)
    requires MagmaLookup((rawGenre, rawSubgenre)).Some?
    ensures var target := MagmaLookup((rawGenre, rawSubgenre)).value;
      var r := HandleGenreSubgenrePair(loc, t, rawGenre, rawSubgenre);
      && r == HandleGenreSubgenrePair(loc, t.(genreAliases := genreAliases, subgenreAliases := subgenreAliases),
                                      rawGenre, rawSubgenre)
      && (r.Ok? ==> r.value.genre == Some(loc.keyIn(GenrePrefix, LocalizationKeyTable(target.genre))))
      && LocalizationKeyTable(target.genre).Some?
      && (target.subgenre.None? ==> r.Ok? && r.value.subgenre == Some(""))
      && (target.subgenre.Some? ==> (r.Err? <==> !ContainsKey(t.subgenreMappings, target.subgenre.value)))
      && (r.Err? ==> r.error == KeyNotFound(target.subgenre.value))
      && (r.Ok? && target.subgenre.Some? ==>
            var s := target.subgenre.value;
            r.value.subgenre == Some(match t.subgenreMappings[Fold(s)]
                                     case Some(m) => MappingSubgenre(loc, m)
                                     case None => Sanitize(loc, s)))
  {
    FoldLower(MagmaLookup((rawGenre, rawSubgenre)).value.genre);
  }

  /** Pairs the override comparer calls equal resolve alike when one of them is a Magma pair. */
  lemma MagmaPairsIgnoreCase(loc: Localizer, t: GenreTables, x: (string, string), y: (string, string))
    requires KeyEquals(x, y) && MagmaLookup(x).Some?
    ensures HandleGenreSubgenrePair(loc, t, x.0, x.1) == HandleGenreSubgenrePair(loc, t, y.0, y.1)
  {
    MagmaLookupRespectsComparer(x, y);
  }

  /**
   * The Magma pairs (pop/dance/electronic, techno) and
   * (pop/dance/electronic, trance) have the override subgenre "", so they
   * throw unless "" is itself a mapping key.
   */
  lemma MagmaEmptySubgenreLookup(loc: Localizer, t: GenreTables, rawGenre: string, rawSubgenre: string)
    requires Fold(rawGenre) == PopDanceElectronic && (Fold(rawSubgenre) == "techno" || Fold(rawSubgenre) == "trance")
    requires !ContainsKey(t.subgenreMappings, "")
    ensures HandleGenreSubgenrePair(loc, t, rawGenre, rawSubgenre) == Err(KeyNotFound(""))
  {
    MagmaEmptySubgenres((rawGenre, rawSubgenre));
  }

  /** A pair that is no Magma pair is resolved through the tables alone. */
  lemma NoOverride(loc: Localizer, t: GenreTables, rawGenre: string, rawSubgenre: string)
    requires MagmaLookup((rawGenre, rawSubgenre)).None?
    ensures HandleGenreSubgenrePair(loc, t, rawGenre, rawSubgenre) == ResolveByTables(loc, t, rawGenre, rawSubgenre)
  {
  }

  /** A redundant pair (by any of the three tests) is resolved as its genre alias alone. */
  lemma DuplicateCollapse(loc: Localizer, t: GenreTables, rawGenre: string, rawSubgenre: string)
    requires IsDuplicatePair(loc, t, rawGenre, rawSubgenre)
    ensures ResolveByTables(loc, t, rawGenre, rawSubgenre) ==
      HandleLoneGenre(loc, t, GetValueOrDefault(t.genreAliases, rawGenre, rawGenre))
  {
  }

  /** Tags that differ only in surrounding white space are redundant. */
  lemma SurroundingWhiteSpaceCollapses(loc: Localizer, t: GenreTables, rawGenre: string, pre: string, post: string)
    requires forall i | 0 <= i < |pre| :: IsWhiteSpace(pre[i])
    requires forall i | 0 <= i < |post| :: IsWhiteSpace(post[i])
    ensures ResolveByTables(loc, t, rawGenre, pre + rawGenre + post) ==
      HandleLoneGenre(loc, t, GetValueOrDefault(t.genreAliases, rawGenre, rawGenre))
  {
    SanitizeIgnoresSurroundingWhiteSpace(loc, rawGenre, pre, post);
  }

  /** Tags equal ignoring case are redundant as soon as the genre tag has an alias of either kind. */
  lemma CaseVariantsCollapse(loc: Localizer, t: GenreTables, rawGenre: string, rawSubgenre: string)
    requires EqualsIgnoreCase(rawGenre, rawSubgenre)
    requires ContainsKey(t.genreAliases, rawGenre) || ContainsKey(t.subgenreAliases, rawGenre)
    ensures ResolveByTables(loc, t, rawGenre, rawSubgenre) ==
      HandleLoneGenre(loc, t, GetValueOrDefault(t.genreAliases, rawGenre, rawGenre))
  {
  }

  /**
   * When the genre alias is exactly "other", the result is the subgenre
   * tag's genre alias, raw and unlocalized, with no subgenre.
   */
  lemma OtherGenre(loc: Localizer, t: GenreTables, rawGenre: string, rawSubgenre: string)
    requires !IsDuplicatePair(loc, t, rawGenre, rawSubgenre)
    requires GetValueOrDefault(t.genreAliases, rawGenre, rawGenre) == Other
    ensures ResolveByTables(loc, t, rawGenre, rawSubgenre) ==
      Ok(Labels(Some(GetValueOrDefault(t.genreAliases, rawSubgenre, rawSubgenre)), Some("")))
  {
  }

  /**
   * The "other" test is case-sensitive: a genre alias "Other" or "OTHER"
   * skips it and keeps the official Other label as the genre, even when
   * the subgenre is mapped.
   */
  lemma OtherTestIsOrdinal(loc: Localizer, t: GenreTables, rawGenre: string, rawSubgenre: string)
    requires !IsDuplicatePair(loc, t, rawGenre, rawSubgenre)
    requires var aliasedGenre := GetValueOrDefault(t.genreAliases, rawGenre, rawGenre);
      Fold(aliasedGenre) == Other && aliasedGenre != Other
    requires ContainsKey(t.subgenreMappings, Sanitize(loc, GetValueOrDefault(t.subgenreAliases, rawSubgenre, rawSubgenre)))
    ensures ResolveByTables(loc, t, rawGenre, rawSubgenre).Ok?
    ensures ResolveByTables(loc, t, rawGenre, rawSubgenre).value.genre == Some(loc.keyIn(GenrePrefix, Some("Other")))
  {
    var aliasedGenre := GetValueOrDefault(t.genreAliases, rawGenre, rawGenre);
    OtherIsOfficial();
    assert GenreLocalizationKey(aliasedGenre) == Some("Other");
    assert TentativeGenre(loc, t, rawGenre) == loc.keyIn(GenrePrefix, Some("Other"));
  }

  /**
   * A mapped sanitized subgenre gets the mapping's display label (null for
   * a null mapping), and the genre is whatever the genre tag alone gave:
   * "" when its alias is not official.
   */
  lemma MappedSubgenre(loc: Localizer, t: GenreTables, rawGenre: string, rawSubgenre: string)
    requires !IsDuplicatePair(loc, t, rawGenre, rawSubgenre)
    requires GetValueOrDefault(t.genreAliases, rawGenre, rawGenre) != Other
    requires ContainsKey(t.subgenreMappings, Sanitize(loc, GetValueOrDefault(t.subgenreAliases, rawSubgenre, rawSubgenre)))
    ensures var m := t.subgenreMappings[Fold(Sanitize(loc, GetValueOrDefault(t.subgenreAliases, rawSubgenre, rawSubgenre)))];
      ResolveByTables(loc, t, rawGenre, rawSubgenre) ==
        Ok(Labels(Some(TentativeGenre(loc, t, rawGenre)), if m.Some? then Some(MappingSubgenre(loc, m.value)) else None))
    ensures !IsOfficial(GetValueOrDefault(t.genreAliases, rawGenre, rawGenre)) ==>
      ResolveByTables(loc, t, rawGenre, rawSubgenre).value.genre == Some("")
  {
  }

  /**
   * An unmapped subgenre is kept sanitized; the genre is the one the genre
   * tag gave, or, failing that, the genre of the genre tag read as a
   * subgenre, or else Other.
   */
  lemma UnmappedSubgenre(loc: Localizer, t: GenreTables, rawGenre: string, rawSubgenre: string)
    requires !IsDuplicatePair(loc, t, rawGenre, rawSubgenre)
    requires GetValueOrDefault(t.genreAliases, rawGenre, rawGenre) != Other
    requires !ContainsKey(t.subgenreMappings, Sanitize(loc, GetValueOrDefault(t.subgenreAliases, rawSubgenre, rawSubgenre)))
    ensures var r := ResolveByTables(loc, t, rawGenre, rawSubgenre);
      var tentative := TentativeGenre(loc, t, rawGenre);
      var genreAsSubgenre := GetValueOrDefault(t.subgenreAliases, rawGenre, rawGenre);
      && r.Ok?
      && r.value.subgenre == Some(Sanitize(loc, GetValueOrDefault(t.subgenreAliases, rawSubgenre, rawSubgenre)))
      && (tentative != "" ==> r.value.genre == Some(tentative))
      && (tentative == "" && ContainsKey(t.subgenreMappings, genreAsSubgenre) ==>
            r.value.genre == (match t.subgenreMappings[Fold(genreAsSubgenre)]
                              case Some(m) => Some(MappingGenre(loc, m))
                              case None => None))
      && (tentative == "" && !ContainsKey(t.subgenreMappings, genreAsSubgenre) ==> r.value.genre == Some(loc.key(OtherKey)))
  {
  }

  // Totality

  /** No entry of subgenreMappings.json is null. */
  predicate NoNullMappings(t: GenreTables) {
    forall k | k in t.subgenreMappings :: t.subgenreMappings[k].Some?
  }

  /** Every Magma override subgenre, "" included, is a mapping key. */
  ghost predicate MagmaSubgenresMapped(t: GenreTables) {
    forall key: (string, string) | MagmaLookup(key).Some? && MagmaLookup(key).value.subgenre.Some? ::
      ContainsKey(t.subgenreMappings, MagmaLookup(key).value.subgenre.value)
  }

  /** Loaded data on which the resolver never throws. */
  ghost predicate WellFormed(t: GenreTables) {
    NoNullMappings(t) && MagmaSubgenresMapped(t)
  }

  /** Without null mappings a lone tag always resolves. */
  lemma LoneTotal(loc: Localizer, t: GenreTables, rawGenre: string)
    requires NoNullMappings(t)
    ensures HandleLoneGenre(loc, t, rawGenre).Ok?
  {
    var sub := GetValueOrDefault(t.subgenreAliases, rawGenre, rawGenre);
    assert ContainsKey(t.subgenreMappings, sub) ==> t.subgenreMappings[Fold(sub)].Some?;
  }

  /** Without null mappings a pair resolved through the tables gets a non-null genre and subgenre. */
  lemma TablesTotal(loc: Localizer, t: GenreTables, rawGenre: string, rawSubgenre: string)
    requires NoNullMappings(t)
    ensures var r := ResolveByTables(loc, t, rawGenre, rawSubgenre);
      r.Ok? && r.value.genre.Some? && r.value.subgenre.Some?
  {
    var aliasedGenre := GetValueOrDefault(t.genreAliases, rawGenre, rawGenre);
    if IsDuplicatePair(loc, t, rawGenre, rawSubgenre) {
      LoneTotal(loc, t, aliasedGenre);
    } else {
      DistinctTagsTotal(loc, t, rawGenre, rawSubgenre);
    }
  }

  /** The same, for a pair that does not collapse: one case per branch of the resolver. */
  lemma DistinctTagsTotal(loc: Localizer, t: GenreTables, rawGenre: string, rawSubgenre: string)
    requires NoNullMappings(t) && !IsDuplicatePair(loc, t, rawGenre, rawSubgenre)
    ensures var r := ResolveByTables(loc, t, rawGenre, rawSubgenre);
      r.Ok? && r.value.genre.Some? && r.value.subgenre.Some?
  {
    var sanitized := Sanitize(loc, GetValueOrDefault(t.subgenreAliases, rawSubgenre, rawSubgenre));
    var genreAsSubgenre := GetValueOrDefault(t.subgenreAliases, rawGenre, rawGenre);
    if GetValueOrDefault(t.genreAliases, rawGenre, rawGenre) == Other {
    } else if ContainsKey(t.subgenreMappings, sanitized) {
      assert t.subgenreMappings[Fold(sanitized)].Some?;
    } else if TentativeGenre(loc, t, rawGenre) == "" && ContainsKey(t.subgenreMappings, genreAsSubgenre) {
      assert t.subgenreMappings[Fold(genreAsSubgenre)].Some?;
    }
  }

  /** On well-formed data every pair of tags resolves, to a non-null genre and subgenre. */
  lemma Totality(loc: Localizer, t: GenreTables, rawGenre: Option<string>, rawSubgenre: Option<string>)
    requires WellFormed(t)
    ensures GetGenresOrDefault(loc, t, rawGenre, rawSubgenre).Ok?
    ensures GetGenresOrDefault(loc, t, rawGenre, rawSubgenre).value.genre.Some?
    ensures GetGenresOrDefault(loc, t, rawGenre, rawSubgenre).value.subgenre.Some?
  {
    if !IsNullOrEmpty(rawGenre) && !IsNullOrEmpty(rawSubgenre) {
      var key := (rawGenre.value, rawSubgenre.value);
      if MagmaLookup(key).Some? {
        assert MagmaLookup(key).value.subgenre.Some? ==>
          ContainsKey(t.subgenreMappings, MagmaLookup(key).value.subgenre.value);
      } else {
        TablesTotal(loc, t, key.0, key.1);
      }
    } else if !IsNullOrEmpty(rawGenre) {
      LoneTotal(loc, t, rawGenre.value);
    } else if !IsNullOrEmpty(rawSubgenre) {
      LoneTotal(loc, t, rawSubgenre.value);
    }
  }
}
