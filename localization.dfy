/**
 * The localization services both resolvers call, passed in as parameters:
 * their results are uninterpreted strings.
 */
module Localization {
  import opened Wrappers

  /**
   * `key(k)` is `Localize.Key(k)`; `keyIn(prefix, name)` is
   * `Localize.Key(prefix, name)`, whose name may be null; `keyFormat(prefix, name)`
   * is `Localize.KeyFormat(prefix, name)`; `cultureCode` is
   * `LocalizationManager.CultureCode`; `titleCase` is `ToTitleCase` of that
   * culture's `TextInfo`.
   */
  datatype Localizer = Localizer(
    key: string -> string,
    keyIn: (string, Option<string>) -> string,
    keyFormat: (string, string) -> string,
    cultureCode: string,
    titleCase: string -> string)

  /** The prefix under which every genre label is localized. */
  const GenrePrefix: string := "Menu.MusicLibrary.Genre"

  /** The label for a song with neither genre nor subgenre. */
  const UnknownGenreKey: string := "Menu.MusicLibrary.Genre.UnknownGenre"

  /** The label of the catch-all genre. */
  const OtherKey: string := "Menu.MusicLibrary.Genre.Other"
}
