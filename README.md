# YARG genre resolution, modelled in Dafny

YARG takes the genre and subgenre tags of a song's metadata (free text written by
charters) and turns them into a localized official genre label plus a subgenre label.

**Data and tables.** The genre data comes from the Genrelizer repository and is loaded
into three case-insensitive dictionaries:
- genre aliases;
- subgenre aliases;
- subgenre mappings, each giving the owning genre and per-culture display labels.

It is combined with two static tables:
- the official genre names with their localization keys;
- an override table for the (genre, subgenre) pairs written by the old Magma charting tool.

**Resolvers.** There are two:
- the current one, `Genrelizer`, which returns "" for an absent subgenre;
- the older one, `Genres`, which returns null and has different precedence rules.

**Around them.** The model also covers:
- the version gate and install sequence that fetch new genre data;
- the loop that builds the tables, which throws on a duplicate key;
- `GenrelizeAll`, which overwrites the tags of every song of the cache in place.

**Modules.**

| file | module | models |
|---|---|---|
| `wrappers.dfy` | `Wrappers` | `Option` (null), `Result` (an exception) |
| `text.dfy` | `Text` | `OrdinalIgnoreCase` as a case fold, `IsNullOrEmpty`, `Trim` |
| `localization.dfy` | `Localization` | the localizer's calls as uninterpreted functions |
| `genre_lists.dfy` | `GenreLists` | `GENRE_LOCALIZATION_KEYS`, `MAGMA_MAPPINGS`, `TupleStringComparer` |
| `dictionaries.dfy` | `Dictionaries` | case-insensitive dictionaries, `Read*` (class `MappingTables`) |
| `genrelizer.dfy` | `Genrelizer` | the current resolver |
| `genres.dfy` | `Genres` | the older resolver |
| `song_cache.dfy` | `SongCache` | `GenrelizeAll` over song entries (class `SongEntry`) |
| `loader.dfy` | `GenreLoader` | `DownloadGenreMappings` (class `GenresFolder`) |

**How the model is built.**
- The resolvers are branch-and-return code, so they are functions.
- The older resolver's `HandleGenreSubgenrePair` reassigns its locals step by step. It is therefore also
  a method, and that method is proved equal to the function.
- Exceptions become `Err` values:
  - `KeyNotFound` from an indexer on a missing key;
  - `ArgumentNull` from a null key;
  - `NullReference` from a member read through a null mapping;
  - `DuplicateKey` from `Add`.

**Behaviour of the code that its comments do not suggest.** The model follows the
code in each case:
- **Current resolver** (`Genrelizer.cs`):
  - A lone unrecognized tag keeps its subgenre-aliased spelling and is not sanitized. Lines 288-292 vs.
    the sanitized pair path.
  - The "other" branch returns the subgenre tag's genre alias as the genre, raw and unlocalized, with
    subgenre "". Lines 354-360.
  - The `subgenreAsGenre is not null` test at line 357 always holds, since alias values are strings.
    So the rescue cascade at lines 362-373 is dead code.
  - The `is OTHER` test is ordinal. A genre alias "Other" skips it and gets the official Other label.
  - A general-case pair with an unofficial genre and a mapped subgenre gets the genre "", not a label.
    Lines 342-346, 377-380.
  - The Magma override subgenre is read with an indexer. The two entries whose override subgenre is ""
    (pop/dance/electronic with techno or trance) therefore throw unless "" is a mapping key.
    Lines 309-311 and `Genrelizer.Lists.cs:231-232`.
  - A lone mapped tag's genre is `Key(prefix, GENRE_LOCALIZATION_KEYS.GetValueOrDefault(mapping.Genre))`,
    where `mapping.Genre` is already a localized label. Line 283.
- **Older resolver** (`Genres.cs`): a subgenre mapping used for the genre goes through
  `GENRE_LOCALIZATION_KEYS` twice (lines 342-343). So a mapping owned by a genre whose key is not
  itself a genre name, such as "ambient/drone" with key "AmbientDrone", throws.

## Model

| member | source | states |
|---|---|---|
| Text.Fold | Assets/Script/Song/Genrelizer.Lists.cs:93 | The key an OrdinalIgnoreCase dictionary compares: same length, every character case-folded. |
| Text.EqualsIgnoreCaseCharwise | Assets/Script/Song/Genrelizer.Lists.cs:304 | OrdinalIgnoreCase equality holds iff the strings agree character by character after folding. |
| Text.EqualsIgnoreCaseIsEquivalence | Assets/Script/Song/Genrelizer.Lists.cs:304 | OrdinalIgnoreCase equality is reflexive, symmetric and transitive. |
| Text.Trim | Assets/Script/Song/Genrelizer.cs:412 | `Trim` returns the middle slice of the input; everything cut off is white space; the result neither starts nor ends with white space. |
| Text.TrimIdempotent | Assets/Script/Song/Genrelizer.cs:412 | Trimming twice is trimming once. |
| Text.TrimIgnoresSurroundingWhiteSpace | Assets/Script/Song/Genrelizer.cs:412 | Strings that differ only by white space around them trim alike. |
| GenreLists.OtherIsOfficial | Assets/Script/Song/Genrelizer.Lists.cs:93-166 | Every case variant of "other" is an official genre, with key "Other". |
| GenreLists.MagmaOnlyGenresNotOfficial | Assets/Script/Song/Genrelizer.Lists.cs:85-167 | No case variant of "metal", "pop/dance/electronic" or "prog" is an official genre. |
| GenreLists.MagmaTable | Assets/Script/Song/Genrelizer.Lists.cs:169-298 | Every value of the override table: its genre is official; the (X, "other") entry of an official X is (X, null); only pop/dance/electronic's techno and trance entries have subgenre "". |
| GenreLists.MagmaLookup | Assets/Script/Song/Genrelizer.Lists.cs:169 | The override lookup for any spelling of the key: the same guarantees, on the folded key. |
| GenreLists.KeyEqualsCharwise | Assets/Script/Song/Genrelizer.Lists.cs:302-305 | The tuple comparer holds iff both components agree letter by letter ignoring case. |
| GenreLists.KeyComparerConsistent | Assets/Script/Song/Genrelizer.Lists.cs:300-311 | The tuple comparer is an equivalence, and equal keys get equal XOR-combined hashes. |
| GenreLists.MagmaLookupRespectsComparer | Assets/Script/Song/Genrelizer.Lists.cs:169 | Keys the comparer calls equal find the same override. |
| GenreLists.MagmaTargetsOfficial | Assets/Script/Song/Genrelizer.Lists.cs:169-298 | Every override target genre is an official genre. |
| GenreLists.MagmaOtherKeepsGenre | Assets/Script/Song/Genrelizer.Lists.cs:172-286 | A key (X, "other") with X official translates to (X, null). |
| GenreLists.MagmaEmptySubgenres | Assets/Script/Song/Genrelizer.Lists.cs:231-232 | An override has subgenre "" iff its key is (pop/dance/electronic, techno) or (pop/dance/electronic, trance), in any case. |
| Dictionaries.LookupsIgnoreCase | Assets/Script/Song/Genrelizer.cs:76-78 | ContainsKey, GetValueOrDefault and the indexer each give equal answers for keys equal ignoring case: same presence, same value, the indexer succeeding on both or neither. |
| Dictionaries.IndexAgreesWithLookups | Assets/Script/Song/Genrelizer.cs:311 | The indexer succeeds exactly on the keys ContainsKey reports, with the value GetValueOrDefault gives whatever the default, and otherwise throws KeyNotFound for the key it was given. |
| Dictionaries.AddsSucceedsIff | Assets/Script/Song/Genrelizer.cs:204-232 | The Add loop completes iff its keys are new to the dictionary and pairwise distinct ignoring case. |
| Dictionaries.DuplicateKeyFails | Assets/Script/Song/Genres.cs:177-205 | A source file with two keys that differ only in case, such as "Rock" and "rock", makes the table construction throw. |
| Dictionaries.AddsContents | Assets/Script/Song/Genrelizer.cs:204-232 | Add never overwrites: existing entries keep their values. After a completed loop the dictionary holds every pair and nothing else new. |
| Dictionaries.AddRange | Assets/Script/Song/Genrelizer.cs:208-211 | The foreach/Add loop reaches the dictionary and the exception given by the `Adds` specification. |
| Dictionaries.MappingTables.constructor | Assets/Script/Song/Genrelizer.cs:76-78 | The three dictionaries start empty. |
| Dictionaries.MappingTables.ReadGenreAliases | Assets/Script/Song/Genrelizer.cs:204-212 | The genre aliases become `Adds` of the file's pairs; the other two tables are unchanged. |
| Dictionaries.MappingTables.ReadSubgenreAliases | Assets/Script/Song/Genrelizer.cs:214-222 | The subgenre aliases become `Adds` of the file's pairs; the other two tables are unchanged. |
| Dictionaries.MappingTables.ReadSubgenreMappings | Assets/Script/Song/Genrelizer.cs:224-232 | The subgenre mappings become `Adds` of the file's pairs; the other two tables are unchanged. |
| Dictionaries.MappingTables.ReadAll | Assets/Script/Song/Genrelizer.cs:87-91 | The three reads run in order; an exception in one leaves the later tables as they were and is the one reported. |
| Genrelizer.MappingSubgenre | Assets/Script/Song/Genrelizer.cs:33 | The mapping's display label is `capitalized` or one of the mapping's localizations. |
| Genrelizer.MappingSubgenreCultureOnly | Assets/Script/Song/Genrelizer.cs:33 | The display label depends on the localizer only through the culture code, and adding a localization for another culture does not change it. |
| Genrelizer.GetGenresOrDefault | Assets/Script/Song/Genrelizer.cs:234-257 | Two absent tags give (UnknownGenre label, ""). Exactly one present tag gives HandleLoneGenre of that tag; two give HandleGenreSubgenrePair of them. |
| Genrelizer.HandleLoneGenre | Assets/Script/Song/Genrelizer.cs:259-293 | A resolved lone tag has a non-null genre and subgenre; the only exception is a null mapping. |
| Genrelizer.LocalizedGenreIgnoresCase | Assets/Script/Song/Genrelizer.cs:46-54 | GetLocalizedGenre depends on the genre name only up to case. |
| Genrelizer.SanitizeIgnoresSurroundingWhiteSpace | Assets/Script/Song/Genrelizer.cs:409-413 | `_sanitize` ignores surrounding white space. |
| Genrelizer.LoneOfficialGenre | Assets/Script/Song/Genrelizer.cs:261-270 | An official genre alias gives (its label, ""), whatever the subgenre tables hold. |
| Genrelizer.LoneCanonicalGenre | Assets/Script/Song/Genrelizer.cs:261-270 | An unaliased official name in any letter case gives its own label. |
| Genrelizer.LoneIgnoresUnofficialGenreAlias | Assets/Script/Song/Genrelizer.cs:272-275 | Once the genre alias is not official it has no influence: the subgenre alias is applied to the raw tag. |
| Genrelizer.LoneMappedSubgenre | Assets/Script/Song/Genrelizer.cs:278-286 | A mapped lone tag gets the mapping's display label. Its genre is the already-localized `Genre` looked up again as a name, which gives the null-name label when that lookup misses. |
| Genrelizer.LoneUnrecognized | Assets/Script/Song/Genrelizer.cs:288-292 | An unrecognized lone tag gives (Other label, its subgenre alias), not sanitized. |
| Genrelizer.MagmaOverride | Assets/Script/Song/Genrelizer.cs:300-324 | A Magma pair's result does not depend on either alias table. The genre is the official label of the override genre. A null override subgenre gives "". An override subgenre throws KeyNotFound iff it is no mapping key; otherwise the subgenre is the mapping's display label, or the sanitized override subgenre for a null mapping. |
| Genrelizer.MagmaPairsIgnoreCase | Assets/Script/Song/Genrelizer.cs:301-303 | Magma key spellings the comparer calls equal resolve alike. |
| Genrelizer.MagmaEmptySubgenreLookup | Assets/Script/Song/Genrelizer.cs:309-311 | (pop/dance/electronic, techno) and (pop/dance/electronic, trance) throw KeyNotFound("") unless "" is a mapping key. |
| Genrelizer.NoOverride | Assets/Script/Song/Genrelizer.cs:301-327 | A pair with no Magma override goes through the alias tables and mappings alone. |
| Genrelizer.DuplicateCollapse | Assets/Script/Song/Genrelizer.cs:334-339 | If any of the three duplicate tests holds, the pair resolves as HandleLoneGenre of the genre alias. |
| Genrelizer.SurroundingWhiteSpaceCollapses | Assets/Script/Song/Genrelizer.cs:336-338 | A subgenre tag equal to the genre tag up to surrounding white space is discarded. |
| Genrelizer.CaseVariantsCollapse | Assets/Script/Song/Genrelizer.cs:334-338 | Tags equal ignoring case collapse once the genre tag has an alias of either kind. |
| Genrelizer.OtherGenre | Assets/Script/Song/Genrelizer.cs:354-360 | A non-duplicate pair whose genre alias is exactly "other" gives (the subgenre tag's genre alias, ""). |
| Genrelizer.OtherTestIsOrdinal | Assets/Script/Song/Genrelizer.cs:342-354 | A genre alias equal to "other" only ignoring case skips that branch, and keeps the official Other label when the subgenre is mapped. |
| Genrelizer.MappedSubgenre | Assets/Script/Song/Genrelizer.cs:376-380 | A mapped sanitized subgenre gives (the tentative genre, the mapping's display label, or null for a null mapping). The genre is "" when the genre alias is not official. |
| Genrelizer.UnmappedSubgenre | Assets/Script/Song/Genrelizer.cs:382-404 | An unmapped subgenre is kept sanitized. The genre is the tentative one; if that is empty, the genre tag's mapping's genre; else Other. |
| Genrelizer.LoneTotal | Assets/Script/Song/Genrelizer.cs:259-293 | With no null mapping, a lone tag always resolves, to a non-null genre and subgenre. |
| Genrelizer.TablesTotal | Assets/Script/Song/Genrelizer.cs:326-407 | With no null mapping, a non-Magma pair always resolves, to a non-null genre and subgenre. |
| Genrelizer.DistinctTagsTotal | Assets/Script/Song/Genrelizer.cs:342-406 | The same for a pair that does not collapse. |
| Genrelizer.Totality | Assets/Script/Song/Genrelizer.cs:234-257 | On well-formed tables every input resolves, without exception and to non-null labels. Well-formed means no null mapping and every override subgenre mapped. |
| Genres.KeyOfAgreesWithLookups | Assets/Script/Song/Genres.cs:236 | `GENRE_LOCALIZATION_KEYS[name]` gives the key exactly for an official name, the one `GetValueOrDefault` reads. A null name throws ArgumentNull; any other name throws KeyNotFound for it. |
| Genres.KeyOfIgnoresCase | Assets/Script/Song/Genres.cs:236 | Names equal ignoring case read the same key, or both throw. |
| Genres.MagmaGenresHaveKeys | Assets/Script/Song/Genres.cs:277 | The key read of a Magma override genre never throws: it gives that genre's entry of `GENRE_LOCALIZATION_KEYS`. |
| Genres.LocalizedOrAgreesWithCurrentResolver | Assets/Script/Song/Genres.cs:346-352 | The older resolver's choice of a mapping's subgenre label, with `capitalized` as the fallback, is the current resolver's `Subgenre` (`Genrelizer.cs:33`). |
| Genres.HandleLoneGenre | Assets/Script/Song/Genres.cs:229-264 | A resolved lone tag always has a non-null genre. |
| Genres.HandleGenreSubgenrePair | Assets/Script/Song/Genres.cs:266-365 | The step-by-step method returns exactly ResolvePair, the reference function the lemmas below describe. |
| Genres.GetGenresOrDefault | Assets/Script/Song/Genres.cs:207-227 | Two absent tags give (null, null). One present tag gives HandleLoneGenre of it; two give the pair result. |
| Genres.LoneOfficialGenre | Assets/Script/Song/Genres.cs:231-237 | An official genre alias gives (its label, null). |
| Genres.LoneMappedSubgenre | Assets/Script/Song/Genres.cs:245-259 | A mapped lone tag resolves iff its mapping's genre is official. Its subgenre is the culture's localization, else the aliased string. |
| Genres.LoneUnrecognized | Assets/Script/Song/Genres.cs:262-263 | An unrecognized lone tag gives (Other label, its subgenre alias). |
| Genres.MagmaOverride | Assets/Script/Song/Genres.cs:272-298 | A Magma pair ignores the aliases. The genre is the override genre's label. A null override subgenre gives null. Otherwise the result is the culture's localization, falling back to the override key, or KeyNotFound iff that key is unmapped. |
| Genres.CollapseOnGenreAlias | Assets/Script/Song/Genres.cs:300-309 | The pair collapses to HandleLoneGenre(genre alias) exactly when the subgenre's genre alias equals it; otherwise it resolves through the tables. A subgenre tag with no genre alias never collapses. |
| Genres.RepeatedGenreKept | Assets/Script/Song/Genres.cs:305-309 | An unaliased, unmapped official name given as both tags keeps itself as the subgenre. |
| Genres.GenreTagAsSubgenreOverrides | Assets/Script/Song/Genres.cs:312-329 | A genre tag that is mapped when read as a subgenre takes the mapping's genre, even over an official alias. It throws iff that genre is not official. |
| Genres.GenreTagOfficial | Assets/Script/Song/Genres.cs:312-316 | Without such a mapping the genre is the official alias's label, else none yet. |
| Genres.UnrecognizedSubgenre | Assets/Script/Song/Genres.cs:355-362 | An unrecognized subgenre is kept as its alias. The genre defaults to Other only when still null. |
| Genres.MappedSubgenre | Assets/Script/Song/Genres.cs:335-353 | A mapped subgenre gets the culture's label or its alias. A genre already found wins; otherwise the genre comes from the mapping. |
| Genres.GenreFromMappingLooksUpKey | Assets/Script/Song/Genres.cs:340-344 | The mapping's genre key is looked up again as a genre name. This succeeds iff the key is itself an official name, and otherwise throws KeyNotFound for the key. |
| Genres.AmbientDroneMappingThrows | Assets/Script/Song/Genres.cs:342-343 | A mapping owned by "ambient/drone" throws KeyNotFound("AmbientDrone") there. |
| Genres.AmbientDroneKeyIsNoName | Assets/Script/Song/Genrelizer.Lists.cs:96 | "AmbientDrone" is no official genre name. |
| Genres.RockMappingResolves | Assets/Script/Song/Genres.cs:342-343 | A mapping owned by "rock" survives the second lookup and gets the Rock label. |
| Genres.RockKeyIsName | Assets/Script/Song/Genrelizer.Lists.cs:93-166 | The key "Rock" is itself an official name, with key "Rock". |
| SongCache.GenrelizeEntry | Assets/Script/Song/Genrelizer.cs:40-42 | One entry's tags are overwritten by the resolver's labels for its old tags, or left alone when the resolver throws, the exception being returned. |
| SongCache.GenrelizeEntries | Assets/Script/Song/Genrelizer.cs:38-43 | For any resolver: entries are overwritten in order up to the first one the resolver throws on, whose exception is returned, the later ones untouched. A resolver that never throws overwrites them all. |
| SongCache.GenrelizeAll | Assets/Script/Song/Genrelizer.cs:36-44 | Each entry's tags are overwritten in place by GetGenresOrDefault of its old tags, in order. An exception leaves the later entries untouched. On well-formed tables nothing throws. |
| GenreLoader.JsonFilesOrderPreserving | Assets/Script/Song/Genrelizer.cs:184-190 | Pruning keeps the files in their enumeration order: it distributes over concatenation, and a single file stays exactly when it ends in ".json". |
| GenreLoader.JsonFilesMembers | Assets/Script/Song/Genrelizer.cs:184-190 | A file survives pruning iff it was in the folder and ends in ".json". |
| GenreLoader.GenresFolder.RemoveFolders | Assets/Script/Song/Genrelizer.cs:170-181 | The "ignore" and ".github" folders are deleted when present. A failing deletion names a folder that was present and leaves the folders deleted before it gone, the rest in place. |
| GenreLoader.GenresFolder.PruneFiles | Assets/Script/Song/Genrelizer.cs:183-190 | The pruning loop leaves exactly the JSON files. A failing deletion names a non-JSON file of the folder; the folder then holds the JSON files before it followed by every file from it on. |
| GenreLoader.GenresFolder.Update | Assets/Script/Song/Genrelizer.cs:100-201 | The call ends UpToDate iff the newest version is unknown, or equals the current one while the repo folder exists; then nothing changes. version.txt changes only to the newest version, once the folder holds the pruned archive. For each step that throws, the state it leaves: a failed download changes nothing; after that update.zip is present; a failed delete of the old folder keeps it; a failed extraction leaves no repository folder while version.txt still names the old version; a failed folder or file deletion leaves the extracted folder partly pruned; a failed version write leaves the pruned folder and the old version; a failed zip delete leaves only update.zip behind. The older resolver's download routine (`Genres.cs:73-174`) is an identical copy. |

## Left out

- HTTP requests, the GitHub API, the zip archive and the file system are parameters:
  - the newest version (null when the request fails);
  - whether reading version.txt throws;
  - the archive's folder contents;
  - the set of steps that throw.
- Creating the genres folder (`Directory.CreateDirectory`) is not modelled.
- JSON parsing: each file is the entry list of the case-sensitive dictionary it deserializes to, in file order.
  Its keys are therefore distinct as written (`DistinctKeys`), though two may differ only in case. An exact
  repeat of a key in the file text, which the deserializer resolves by overwriting, is not modelled.
- Dictionaries.MappingTables.ReadAll: the three JSON files are taken to exist and each to parse to an object.
  `File.ReadAllText` and `DeserializeObject` (`Genrelizer.cs:207, 217, 227`) throw on a missing or malformed
  file, and a JSON `null` root gives a null dictionary whose `Keys` throws. The model has no outcome for
  these, although a failed extraction (`GenreLoader.GenresFolder.Update`) leaves no repository folder to read.
- The async plumbing (`UniTask`, thread pool), the loading-screen texts and `GlobalVariables.OfflineMode`
  (whether the download runs at all) are not modelled.
- `Localize.Key`, `Localize.KeyFormat`, `LocalizationManager.CultureCode` and the culture's
  `TextInfo.ToTitleCase` are uninterpreted fields of `Localization.Localizer`. Only the trimming half of
  `_sanitize` is concrete.
- Text.Fold: folds ASCII letters only. OrdinalIgnoreCase also folds non-ASCII letters. The compiled-in tables
  use ASCII keys only, but the downloaded alias and mapping files may not: two such keys that differ only in
  the case of a non-ASCII letter ("É" and "é") are one key to the program and two keys to the model, in
  lookups and in the duplicate-key test alike.
- GenreLoader.GenresFolder.Update: a recursive folder delete, the extraction and a file delete are each taken to
  be all-or-nothing. A folder delete or an extraction that throws part-way through, leaving some of its
  contents behind, is not modelled.
- GenreLoader.GenresFolder.Update: the version write is taken to be all-or-nothing too. `File.WriteAllTextAsync`
  (`Genrelizer.cs:193`) truncates version.txt before writing, so a write that throws part-way can leave it
  empty or partly written, whereas the model's `Failed(WriteVersion)` leaves the old version.
- GenreLoader.EndsWith: is an ordinal suffix test, whereas `string.EndsWith(string)` compares
  culture-sensitively.
- Alias values in the JSON files are taken to be non-null strings. So `Genrelizer.cs:363-373` is not
  modelled, being unreachable under that assumption.
- Genrelizer.SubgenreMapping: `capitalized` is never null.
- Genrelizer.SubgenreMapping: the values of `localizations` are taken to be non-null strings (the dictionary
  itself may be null). A JSON `null` value would make `Subgenre` (`Genrelizer.cs:33`) and the older resolver's
  reads (`Genres.cs:252, 285, 348`) give a null subgenre. The non-null subgenres promised by
  `Genrelizer.HandleLoneGenre`, `Genrelizer.LoneTotal`, `Genrelizer.TablesTotal` and `Genrelizer.Totality`
  rest on this assumption.
- The `SortString` wrapping of the labels is left out: a `SortString` is the label.
- The `SongCache` structure is left out. Its lists of entries are flattened into one sequence of distinct
  entries.
- GenreLists.MagmaTable: the pairwise distinctness of the `MAGMA_MAPPINGS` keys is not stated as a lemma.
  It holds by construction, since a key written twice would be a redundant match case, which the
  verifier reports.
- Assets/Script/Gameplay/Visuals/TrackElements/Drums/SixLaneDrumsNoteElement.cs is Unity rendering code,
  not part of the genre resolution. It is not part of this model.
