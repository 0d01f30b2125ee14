/**
 * The static tables of the genre resolver: the official genre names with
 * their localization keys, and the table that translates the (genre,
 * subgenre) pairs of the old Magma charting tool, with the case-insensitive
 * comparer for its keys.
 */
module GenreLists {
  import opened Wrappers
  import opened Text

  // Official genres (Genrelizer.Lists.cs, the constants before GENRE_LOCALIZATION_KEYS)
  const Alternative: Lower := "alternative"
  const AmbientDrone: Lower := "ambient/drone"
  const Ballad: Lower := "ballad"
  const Blues: Lower := "blues"
  const ChildrensMusic: Lower := "children's music"
  const Chiptune: Lower := "chiptune"
  const ClassicRock: Lower := "classic rock"
  const Classical: Lower := "classical"
  const Country: Lower := "country"
  const Dance: Lower := "dance"
  const DeathBlackMetal: Lower := "death/black metal"
  const Disco: Lower := "disco"
  const Djent: Lower := "djent"
  const DnbBreakbeatJungle: Lower := "dnb/breakbeat/jungle"
  const DoomMetal: Lower := "doom metal"
  const Dubstep: Lower := "dubstep"
  const Electronic: Lower := "electronic"
  const ElectronicRock: Lower := "electronic rock"
  const Emo: Lower := "emo"
  const Folk: Lower := "folk"
  const Fusion: Lower := "fusion"
  const Glam: Lower := "glam"
  const Glitch: Lower := "glitch"
  const Grindcore: Lower := "grindcore"
  const GrooveMetal: Lower := "groove metal"
  const Grunge: Lower := "grunge"
  const HardRock: Lower := "hard rock"
  const HardcoreEdm: Lower := "hardcore edm"
  const HeavyMetal: Lower := "heavy metal"
  const HipHopRap: Lower := "hip-hop/rap"
  const Holiday: Lower := "holiday"
  const House: Lower := "house"
  const Idm: Lower := "idm"
  const IndieRock: Lower := "indie rock"
  const Industrial: Lower := "industrial"
  const Inspirational: Lower := "inspirational"
  const JPop: Lower := "j-pop"
  const JRock: Lower := "j-rock"
  const Jazz: Lower := "jazz"
  const KPop: Lower := "k-pop"
  const Latin: Lower := "latin"
  const Mashup: Lower := "mashup"
  const MathRock: Lower := "math rock"
  const MelodicPowerMetal: Lower := "melodic/power metal"
  const Metalcore: Lower := "metalcore"
  const Noise: Lower := "noise"
  const NewWave: Lower := "new wave"
  const Novelty: Lower := "novelty"
  const NuMetal: Lower := "nu-metal"
  const Orchestral: Lower := "orchestral"
  const Pop: Lower := "pop"
  const PopPunk: Lower := "pop punk"
  const PopRock: Lower := "pop-rock"
  const PostHardcore: Lower := "post-hardcore"
  const Progressive: Lower := "progressive"
  const Psychedelic: Lower := "psychedelic"
  const Punk: Lower := "punk"
  const RnbSoulFunk: Lower := "r&b/soul/funk"
  const ReggaeSka: Lower := "reggae/ska"
  const Rock: Lower := "rock"
  const RockAndRoll: Lower := "rock & roll"
  const Soundtrack: Lower := "soundtrack"
  const SouthernRock: Lower := "southern rock"
  const SurfRock: Lower := "surf rock"
  const SynthpopElectropop: Lower := "synthpop/electropop"
  const Techno: Lower := "techno"
  const ThrashSpeedMetal: Lower := "thrash/speed metal"
  const Trance: Lower := "trance"
  const Trap: Lower := "trap"
  const Urban: Lower := "urban"
  const World: Lower := "world"
  const Other: Lower := "other"

  // From Magma, but not official
  const Metal: Lower := "metal"
  const PopDanceElectronic: Lower := "pop/dance/electronic"
  const Prog: Lower := "prog"

  /**
   * GENRE_LOCALIZATION_KEYS as written: each official genre name, in the
   * lower case it is spelled in, to its localization key.
   */
  function LocalizationKeyTable(name: string): Option<string> {
    if name == [] then None else
    match name[0]
    case 'a' => (
      match name
      case "alternative" => Some("Alternative")
      case "ambient/drone" => Some("AmbientDrone")
      case _ => None)
    case 'b' => (
      match name
      case "ballad" => Some("Ballad")
      case "blues" => Some("Blues")
      case _ => None)
    case 'c' => (
      match name
      case "children's music" => Some("ChildrensMusic")
      case "chiptune" => Some("Chiptune")
      case "classic rock" => Some("ClassicRock")
      case "classical" => Some("Classical")
      case "country" => Some("Country")
      case _ => None)
    case 'd' => (
      match name
      case "dance" => Some("Dance")
      case "death/black metal" => Some("DeathBlackMetal")
      case "disco" => Some("Disco")
      case "djent" => Some("Djent")
      case "dnb/breakbeat/jungle" => Some("DnbBreakbeatJungle")
      case "doom metal" => Some("DoomMetal")
      case "dubstep" => Some("Dubstep")
      case _ => None)
    case 'e' => (
      match name
      case "electronic" => Some("Electronic")
      case "electronic rock" => Some("ElectronicRock")
      case "emo" => Some("Emo")
      case _ => None)
    case 'f' => (
      match name
      case "folk" => Some("Folk")
      case "fusion" => Some("Fusion")
      case _ => None)
    case 'g' => (
      match name
      case "glam" => Some("Glam")
      case "glitch" => Some("Glitch")
      case "grindcore" => Some("Grindcore")
      case "groove metal" => Some("GrooveMetal")
      case "grunge" => Some("Grunge")
      case _ => None)
    case 'h' => (
      match name
      case "hard rock" => Some("HardRock")
      case "hardcore edm" => Some("HardcoreEDM")
      case "heavy metal" => Some("HeavyMetal")
      case "hip-hop/rap" => Some("HipHopRap")
      case "holiday" => Some("Holiday")
      case "house" => Some("House")
      case _ => None)
    case 'i' => (
      match name
      case "idm" => Some("IDM")
      case "indie rock" => Some("IndieRock")
      case "industrial" => Some("Industrial")
      case "inspirational" => Some("Inspirational")
      case _ => None)
    case 'j' => (
      match name
      case "j-pop" => Some("JPop")
      case "j-rock" => Some("JRock")
      case "jazz" => Some("Jazz")
      case _ => None)
    case 'k' => (
      match name
      case "k-pop" => Some("KPop")
      case _ => None)
    case 'l' => (
      match name
      case "latin" => Some("Latin")
      case _ => None)
    case 'm' => (
      match name
      case "mashup" => Some("Mashup")
      case "math rock" => Some("MathRock")
      case "melodic/power metal" => Some("MelodicPowerMetal")
      case "metalcore" => Some("Metalcore")
      case _ => None)
    case 'n' => (
      match name
      case "noise" => Some("Noise")
      case "new wave" => Some("NewWave")
      case "novelty" => Some("Novelty")
      case "nu-metal" => Some("NuMetal")
      case _ => None)
    case 'o' => (
      match name
      case "orchestral" => Some("Orchestral")
      case "other" => Some("Other")
      case _ => None)
    case 'p' => (
      match name
      case "pop" => Some("Pop")
      case "pop punk" => Some("PopPunk")
      case "pop-rock" => Some("PopRock")
      case "post-hardcore" => Some("PostHardcore")
      case "progressive" => Some("Progressive")
      case "psychedelic" => Some("Psychedelic")
      case "punk" => Some("Punk")
      case _ => None)
    case 'r' => (
      match name
      case "r&b/soul/funk" => Some("RnbSoulFunk")
      case "reggae/ska" => Some("ReggaeSka")
      case "rock" => Some("Rock")
      case "rock & roll" => Some("RockAndRoll")
      case _ => None)
    case 's' => (
      match name
      case "soundtrack" => Some("Soundtrack")
      case "southern rock" => Some("SouthernRock")
      case "surf rock" => Some("SurfRock")
      case "synthpop/electropop" => Some("SynthpopElectropop")
      case _ => None)
    case 't' => (
      match name
      case "techno" => Some("Techno")
      case "thrash/speed metal" => Some("ThrashSpeedMetal")
      case "trance" => Some("Trance")
      case "trap" => Some("Trap")
      case _ => None)
    case 'u' => (
      match name
      case "urban" => Some("Urban")
      case _ => None)
    case 'w' => (
      match name
      case "world" => Some("World")
      case _ => None)
    case _ => None
  }

  /** `GENRE_LOCALIZATION_KEYS.GetValueOrDefault(name)`: the table compares names ignoring case. */
  function GenreLocalizationKey(name: string): Option<string> {
    LocalizationKeyTable(Fold(name))
  }

  /** `GENRE_LOCALIZATION_KEYS.ContainsKey(name)`. */
  predicate IsOfficial(name: string) {
    GenreLocalizationKey(name).Some?
  }

  /** "other" is official, under the localization key "Other", whatever the case of its letters. */
  lemma OtherIsOfficial()
    ensures forall s | Fold(s) == Other :: GenreLocalizationKey(s) == Some("Other")
  {
  }

  /** The three Magma-only genres are not official, whatever the case of their letters. */
  lemma MagmaOnlyGenresNotOfficial()
    ensures forall s | Fold(s) == Metal || Fold(s) == PopDanceElectronic || Fold(s) == Prog :: !IsOfficial(s)
  {
  }

  /** A value of MAGMA_MAPPINGS: the genre and the subgenre (None for null) a Magma pair translates to. */
  datatype MagmaTarget = MagmaTarget(genre: Lower, subgenre: Option<string>)

  /**
   * What every entry of MAGMA_MAPPINGS with Magma genre `genre` and Magma
   * subgenre `subgenre` satisfies, `r` being its value: the target genre is
   * official; the "other" entry of an official genre keeps that genre and
   * has no subgenre; only the techno and trance entries of
   * pop/dance/electronic have the empty subgenre.
   */
  predicate TargetConsistent(genre: string, subgenre: string, r: Option<MagmaTarget>) {
    r.Some? ==>
      && LocalizationKeyTable(r.value.genre).Some?
      && (subgenre == Other && LocalizationKeyTable(genre).Some? ==> r.value.genre == genre && r.value.subgenre == None)
      && (r.value.subgenre == Some("") ==>
            genre == PopDanceElectronic && (subgenre == "techno" || subgenre == "trance"))
  }

  /**
   * MAGMA_MAPPINGS on keys as the initializer spells them (lower case): one
   * case per Magma genre, each handled by the rows written under it. A key
   * written twice would be a redundant case, which Dafny reports, so the
   * initializer's duplicate-key exception cannot arise in this table.
   */
  function MagmaTable(genre: string, subgenre: string): (r: Option<MagmaTarget>)
    ensures TargetConsistent(genre, subgenre, r)
  {
    match genre
    case "alternative" => MagmaAlternative(subgenre)
    case "blues" => MagmaBlues(subgenre)
    case "country" => MagmaCountry(subgenre)
    case "glam" => MagmaGlam(subgenre)
    case "hip-hop/rap" => MagmaHipHopRap(subgenre)
    case "indie rock" => MagmaIndieRock(subgenre)
    case "jazz" => MagmaJazz(subgenre)
    case "metal" => MagmaMetal(subgenre)
    case "new wave" => MagmaNewWave(subgenre)
    case "pop/dance/electronic" => MagmaPopDanceElectronic(subgenre)
    case "pop-rock" => MagmaPopRock(subgenre)
    case "prog" => MagmaProg(subgenre)
    case "punk" => MagmaPunk(subgenre)
    case "r&b/soul/funk" => MagmaRnbSoulFunk(subgenre)
    case "reggae/ska" => MagmaReggaeSka(subgenre)
    case "rock" => MagmaRock(subgenre)
    case "urban" => MagmaUrban(subgenre)
    case "other" => MagmaOther(subgenre)
    case _ => None
  }

  /** The entries of MAGMA_MAPPINGS whose Magma genre is "alternative". */
  function MagmaAlternative(subgenre: string): (r: Option<MagmaTarget>)
    ensures TargetConsistent(Alternative, subgenre, r)
  {
    match subgenre
    case "college" => Some(MagmaTarget(Alternative, Some("college rock")))
    case "other" => Some(MagmaTarget(Alternative, None))
    case _ => None
  }

  /** The entries of MAGMA_MAPPINGS whose Magma genre is "blues". */
  function MagmaBlues(subgenre: string): (r: Option<MagmaTarget>)
    ensures TargetConsistent(Blues, subgenre, r)
  {
    match subgenre
    case "acoustic" => Some(MagmaTarget(Blues, Some("acoustic blues")))
    case "chicago" => Some(MagmaTarget(Blues, Some("chicago blues")))
    case "classic" => Some(MagmaTarget(Blues, Some("classic blues")))
    case "contemporary" => Some(MagmaTarget(Blues, Some("contemporary blues")))
    case "country" => Some(MagmaTarget(Blues, Some("country blues")))
    case "delta" => Some(MagmaTarget(Blues, Some("delta blues")))
    case "electric" => Some(MagmaTarget(Blues, Some("electric blues")))
    case "other" => Some(MagmaTarget(Blues, None))
    case _ => None
  }

  /** The entries of MAGMA_MAPPINGS whose Magma genre is "country". */
  function MagmaCountry(subgenre: string): (r: Option<MagmaTarget>)
    ensures TargetConsistent(Country, subgenre, r)
  {
    match subgenre
    case "alternative" => Some(MagmaTarget(Country, Some("alternative country")))
    case "contemporary" => Some(MagmaTarget(Country, Some("contemporary country")))
    case "outlaw" => Some(MagmaTarget(Country, Some("outlaw country")))
    case "traditional folk" => Some(MagmaTarget(Folk, Some("traditional folk")))
    case "other" => Some(MagmaTarget(Country, None))
    case _ => None
  }

  /** The entries of MAGMA_MAPPINGS whose Magma genre is "glam". */
  function MagmaGlam(subgenre: string): (r: Option<MagmaTarget>)
    ensures TargetConsistent(Glam, subgenre, r)
  {
    match subgenre
    case "other" => Some(MagmaTarget(Glam, None))
    case _ => None
  }

  /** The entries of MAGMA_MAPPINGS whose Magma genre is "hip-hop/rap". */
  function MagmaHipHopRap(subgenre: string): (r: Option<MagmaTarget>)
    ensures TargetConsistent(HipHopRap, subgenre, r)
  {
    match subgenre
    case "gangsta" => Some(MagmaTarget(HipHopRap, Some("gangsta rap")))
    case "other" => Some(MagmaTarget(HipHopRap, None))
    case _ => None
  }

  /** The entries of MAGMA_MAPPINGS whose Magma genre is "indie rock". */
  function MagmaIndieRock(subgenre: string): (r: Option<MagmaTarget>)
    ensures TargetConsistent(IndieRock, subgenre, r)
  {
    match subgenre
    case "math rock" => Some(MagmaTarget(MathRock, None))
    case "noise" => Some(MagmaTarget(Noise, Some("noise rock")))
    case "other" => Some(MagmaTarget(IndieRock, None))
    case _ => None
  }

  /** The entries of MAGMA_MAPPINGS whose Magma genre is "jazz". */
  function MagmaJazz(subgenre: string): (r: Option<MagmaTarget>)
    ensures TargetConsistent(Jazz, subgenre, r)
  {
    match subgenre
    case "contemporary" => Some(MagmaTarget(Jazz, Some("contemporary jazz")))
    case "experimental" => Some(MagmaTarget(Jazz, Some("experimental jazz")))
    case "smooth" => Some(MagmaTarget(Jazz, Some("smooth jazz")))
    case "other" => Some(MagmaTarget(Jazz, None))
    case _ => None
  }

  /** The entries of MAGMA_MAPPINGS whose Magma genre is "metal". */
  function MagmaMetal(subgenre: string): (r: Option<MagmaTarget>)
    ensures TargetConsistent(Metal, subgenre, r)
  {
    match subgenre
    case "alternative" => Some(MagmaTarget(HeavyMetal, Some("alternative metal")))
    case "black" => Some(MagmaTarget(DeathBlackMetal, Some("black metal")))
    case "core" => Some(MagmaTarget(Metalcore, None))
    case "death" => Some(MagmaTarget(DeathBlackMetal, Some("death metal")))
    case "hair" => Some(MagmaTarget(HeavyMetal, Some("hair metal")))
    case "industrial" => Some(MagmaTarget(Industrial, Some("industrial metal")))
    case "metal" => Some(MagmaTarget(HeavyMetal, None))
    case "power" => Some(MagmaTarget(MelodicPowerMetal, Some("power metal")))
    case "prog" => Some(MagmaTarget(HeavyMetal, Some("progressive metal")))
    case "speed" => Some(MagmaTarget(ThrashSpeedMetal, Some("speed metal")))
    case "thrash" => Some(MagmaTarget(ThrashSpeedMetal, Some("thrash metal")))
    case "other" => Some(MagmaTarget(HeavyMetal, None))
    case _ => None
  }

  /** The entries of MAGMA_MAPPINGS whose Magma genre is "new wave". */
  function MagmaNewWave(subgenre: string): (r: Option<MagmaTarget>)
    ensures TargetConsistent(NewWave, subgenre, r)
  {
    match subgenre
    case "synthpop" => Some(MagmaTarget(SynthpopElectropop, Some("synthpop")))
    case "other" => Some(MagmaTarget(NewWave, None))
    case _ => None
  }

  /** The entries of MAGMA_MAPPINGS whose Magma genre is "pop/dance/electronic". */
  function MagmaPopDanceElectronic(subgenre: string): (r: Option<MagmaTarget>)
    ensures TargetConsistent(PopDanceElectronic, subgenre, r)
  {
    match subgenre
    case "ambient" => Some(MagmaTarget(AmbientDrone, Some("ambient")))
    case "breakbeat" => Some(MagmaTarget(DnbBreakbeatJungle, Some("breakbeat")))
    case "chiptune" => Some(MagmaTarget(Chiptune, None))
    case "dance" => Some(MagmaTarget(Dance, None))
    case "downtempo" => Some(MagmaTarget(Electronic, Some("downtempo")))
    case "dub" => Some(MagmaTarget(Dubstep, None))
    case "drum and bass" => Some(MagmaTarget(DnbBreakbeatJungle, Some("drum and bass")))
    case "electronica" => Some(MagmaTarget(Electronic, Some("electronica")))
    case "garage" => Some(MagmaTarget(Electronic, Some("garage")))
    case "hardcore dance" => Some(MagmaTarget(HardcoreEdm, Some("hardcore dance")))
    case "house" => Some(MagmaTarget(House, None))
    case "industrial" => Some(MagmaTarget(Industrial, None))
    case "techno" => Some(MagmaTarget(Techno, Some("")))
    case "trance" => Some(MagmaTarget(Trance, Some("")))
    case "other" => Some(MagmaTarget(Electronic, None))
    case _ => None
  }

  /** The entries of MAGMA_MAPPINGS whose Magma genre is "pop-rock". */
  function MagmaPopRock(subgenre: string): (r: Option<MagmaTarget>)
    ensures TargetConsistent(PopRock, subgenre, r)
  {
    match subgenre
    case "contemporary" => Some(MagmaTarget(PopRock, Some("contemporary pop-rock")))
    case "disco" => Some(MagmaTarget(Disco, None))
    case "motown" => Some(MagmaTarget(RnbSoulFunk, Some("motown")))
    case "pop" => Some(MagmaTarget(Pop, Some("pop-rock")))
    case "rhythm and blues" => Some(MagmaTarget(RnbSoulFunk, Some("rhythm and blues")))
    case "soul" => Some(MagmaTarget(RnbSoulFunk, Some("soul")))
    case "teen" => Some(MagmaTarget(Pop, Some("teen pop")))
    case "other" => Some(MagmaTarget(PopRock, None))
    case _ => None
  }

  /** The entries of MAGMA_MAPPINGS whose Magma genre is "prog". */
  function MagmaProg(subgenre: string): (r: Option<MagmaTarget>)
    ensures TargetConsistent(Prog, subgenre, r)
  {
    match subgenre
    case "prog rock" => Some(MagmaTarget(Progressive, None))
    case _ => None
  }

  /** The entries of MAGMA_MAPPINGS whose Magma genre is "punk". */
  function MagmaPunk(subgenre: string): (r: Option<MagmaTarget>)
    ensures TargetConsistent(Punk, subgenre, r)
  {
    match subgenre
    case "alternative" => Some(MagmaTarget(Punk, Some("alternative punk rock")))
    case "classic" => Some(MagmaTarget(Punk, Some("classic punk rock")))
    case "garage" => Some(MagmaTarget(Punk, Some("garage punk")))
    case "hardcore" => Some(MagmaTarget(Punk, Some("hardcore punk")))
    case "pop" => Some(MagmaTarget(PopPunk, None))
    case "other" => Some(MagmaTarget(Punk, None))
    case _ => None
  }

  /** The entries of MAGMA_MAPPINGS whose Magma genre is "r&b/soul/funk". */
  function MagmaRnbSoulFunk(subgenre: string): (r: Option<MagmaTarget>)
    ensures TargetConsistent(RnbSoulFunk, subgenre, r)
  {
    match subgenre
    case "disco" => Some(MagmaTarget(Disco, None))
    case "other" => Some(MagmaTarget(RnbSoulFunk, None))
    case _ => None
  }

  /** The entries of MAGMA_MAPPINGS whose Magma genre is "reggae/ska". */
  function MagmaReggaeSka(subgenre: string): (r: Option<MagmaTarget>)
    ensures TargetConsistent(ReggaeSka, subgenre, r)
  {
    match subgenre
    case "other" => Some(MagmaTarget(ReggaeSka, None))
    case _ => None
  }

  /** The entries of MAGMA_MAPPINGS whose Magma genre is "rock". */
  function MagmaRock(subgenre: string): (r: Option<MagmaTarget>)
    ensures TargetConsistent(Rock, subgenre, r)
  {
    match subgenre
    case "arena" => Some(MagmaTarget(Rock, Some("arena rock")))
    case "blues" => Some(MagmaTarget(Rock, Some("blues rock")))
    case "folk rock" => Some(MagmaTarget(Folk, Some("folk rock")))
    case "funk" => Some(MagmaTarget(RnbSoulFunk, Some("funk")))
    case "garage" => Some(MagmaTarget(Rock, Some("garage rock")))
    case "psychedelic" => Some(MagmaTarget(Rock, Some("psychedelic rock")))
    case "reggae" => Some(MagmaTarget(ReggaeSka, Some("reggae")))
    case "rockabilly" => Some(MagmaTarget(RockAndRoll, Some("rockabilly")))
    case "rock and roll" => Some(MagmaTarget(RockAndRoll, None))
    case "ska" => Some(MagmaTarget(ReggaeSka, Some("ska")))
    case "surf" => Some(MagmaTarget(SurfRock, None))
    case "other" => Some(MagmaTarget(Rock, None))
    case _ => None
  }

  /** The entries of MAGMA_MAPPINGS whose Magma genre is "urban". */
  function MagmaUrban(subgenre: string): (r: Option<MagmaTarget>)
    ensures TargetConsistent(Urban, subgenre, r)
  {
    match subgenre
    case "alternative rap" => Some(MagmaTarget(HipHopRap, Some("alternative rap")))
    case "downtempo" => Some(MagmaTarget(Electronic, Some("downtempo")))
    case "drum and bass" => Some(MagmaTarget(DnbBreakbeatJungle, Some("drum and bass")))
    case "dub" => Some(MagmaTarget(Dubstep, None))
    case "electronica" => Some(MagmaTarget(Electronic, Some("electronica")))
    case "gangsta" => Some(MagmaTarget(HipHopRap, Some("gangsta rap")))
    case "garage" => Some(MagmaTarget(Electronic, Some("garage")))
    case "hardcore dance" => Some(MagmaTarget(HardcoreEdm, Some("hardcore dance")))
    case "hardcore rap" => Some(MagmaTarget(HipHopRap, Some("hardcore rap")))
    case "hip hop" => Some(MagmaTarget(HipHopRap, Some("hip-hop")))
    case "industrial" => Some(MagmaTarget(Industrial, None))
    case "old school hip hop" => Some(MagmaTarget(HipHopRap, Some("oldschool hip-hop")))
    case "rap" => Some(MagmaTarget(HipHopRap, Some("rap")))
    case "trip hop" => Some(MagmaTarget(HipHopRap, Some("trip hop")))
    case "underground rap" => Some(MagmaTarget(HipHopRap, Some("underground rap")))
    case "other" => Some(MagmaTarget(Urban, None))
    case _ => None
  }

  /** The entries of MAGMA_MAPPINGS whose Magma genre is "other". */
  function MagmaOther(subgenre: string): (r: Option<MagmaTarget>)
    ensures TargetConsistent(Other, subgenre, r)
  {
    match subgenre
    case "ambient" => Some(MagmaTarget(AmbientDrone, Some("ambient")))
    case "breakbeat" => Some(MagmaTarget(DnbBreakbeatJungle, Some("breakbeat")))
    case "chiptune" => Some(MagmaTarget(Chiptune, None))
    case "classical" => Some(MagmaTarget(Classical, None))
    case "contemporary folk" => Some(MagmaTarget(Folk, Some("contemporary folk")))
    case "dance" => Some(MagmaTarget(Dance, None))
    case "electronica" => Some(MagmaTarget(Electronic, Some("electronica")))
    case "house" => Some(MagmaTarget(House, None))
    case "techno" => Some(MagmaTarget(Techno, None))
    case "trance" => Some(MagmaTarget(Trance, None))
    case _ => None
  }

  /**
   * `MAGMA_MAPPINGS.TryGetValue(key)`: the dictionary compares keys with
   * TupleStringComparer, so it looks up the folded key.
   */
  function MagmaLookup(key: (string, string)): (r: Option<MagmaTarget>)
    ensures TargetConsistent(Fold(key.0), Fold(key.1), r)
  {
    MagmaTable(Fold(key.0), Fold(key.1))
  }

  /** `TupleStringComparer.Equals`: both components equal ignoring case. */
  predicate KeyEquals(x: (string, string), y: (string, string)) {
    EqualsIgnoreCase(x.0, y.0) && EqualsIgnoreCase(x.1, y.1)
  }

  /** `TupleStringComparer.GetHashCode`: the case-insensitive hashes of the two components, combined by XOR. */
  function KeyHash(hash: string -> bv32, k: (string, string)): bv32 {
    IgnoreCaseHash(hash, k.0) ^ IgnoreCaseHash(hash, k.1)
  }

  /** The comparer holds exactly when both components agree letter by letter, ignoring case. */
  lemma KeyEqualsCharwise(x: (string, string), y: (string, string))
    ensures KeyEquals(x, y) <==>
      && |x.0| == |y.0| && (forall i | 0 <= i < |x.0| :: FoldChar(x.0[i]) == FoldChar(y.0[i]))
      && |x.1| == |y.1| && (forall i | 0 <= i < |x.1| :: FoldChar(x.1[i]) == FoldChar(y.1[i]))
  {
    EqualsIgnoreCaseCharwise(x.0, y.0);
    EqualsIgnoreCaseCharwise(x.1, y.1);
  }

  /** The comparer is an equivalence and agrees with its hash, as a dictionary comparer must. */
  lemma KeyComparerConsistent(hash: string -> bv32, x: (string, string), y: (string, string), z: (string, string))
    ensures KeyEquals(x, x)
    ensures KeyEquals(x, y) ==> KeyEquals(y, x)
    ensures KeyEquals(x, y) && KeyEquals(y, z) ==> KeyEquals(x, z)
    ensures KeyEquals(x, y) ==> KeyHash(hash, x) == KeyHash(hash, y)
  {
  }

  /** Keys the comparer calls equal find the same entry. */
  lemma MagmaLookupRespectsComparer(x: (string, string), y: (string, string))
    requires KeyEquals(x, y)
    ensures MagmaLookup(x) == MagmaLookup(y)
  {
  }

  /** Every target genre of MAGMA_MAPPINGS is an official key. */
  lemma MagmaTargetsOfficial(key: (string, string))
    requires MagmaLookup(key).Some?
    ensures IsOfficial(MagmaLookup(key).value.genre)
  {
    FoldLower(MagmaLookup(key).value.genre);
  }

  /** Every (X, "other") key with X official maps to (X, null). */
  lemma MagmaOtherKeepsGenre(key: (string, string))
    requires Fold(key.1) == Other && IsOfficial(key.0) && MagmaLookup(key).Some?
    ensures MagmaLookup(key).value == MagmaTarget(Fold(key.0), None)
  {
  }

  /**
   * Only two entries, (pop/dance/electronic, techno) and
   * (pop/dance/electronic, trance), carry the empty subgenre rather than null.
   */
  lemma MagmaEmptySubgenres(key: (string, string))
    ensures (MagmaLookup(key).Some? && MagmaLookup(key).value.subgenre == Some("")) <==>
      Fold(key.0) == PopDanceElectronic && (Fold(key.1) == "techno" || Fold(key.1) == "trance")
  {
    if Fold(key.0) == PopDanceElectronic && Fold(key.1) == "techno" {
      assert MagmaPopDanceElectronic("techno") == Some(MagmaTarget(Techno, Some("")));
    } else if Fold(key.0) == PopDanceElectronic && Fold(key.1) == "trance" {
      assert MagmaPopDanceElectronic("trance") == Some(MagmaTarget(Trance, Some("")));
    }
  }
}
