/** The records the inventory rules read, and the database-backed providers
    they consult, reduced to plain values and total functions. */
module Repository {
  import opened Wrappers
  import opened Qualities

  /** The tiers a series will accept, and the tier at which it stops
      looking for upgrades. */
  datatype QualityProfile = QualityProfile(allowed: seq<QualityType>, cutoff: QualityType)

  /** A series of the library; `runtime` is the nominal episode length in minutes. */
  datatype Series = Series(seriesId: int, monitored: bool, runtime: int, qualityProfile: QualityProfile)

  /** The file held for an episode: its tier and whether it is a proper. */
  datatype EpisodeFile = EpisodeFile(quality: QualityType, proper: bool)

  datatype Episode = Episode(episodeId: int, ignored: bool, episodeFile: Option<EpisodeFile>)

  /** A release as parsed from its title. `series` is null (None) until the
      release has been mapped to a series of the library. */
  datatype EpisodeParseResult = EpisodeParseResult(
    cleanTitle: string,
    seasonNumber: int,
    episodeNumbers: seq<int>,
    quality: Quality,
    size: int,
    series: Option<Series>)

  /** The lookups the rules make into the series, episode, history and
      quality-type providers. Each is a total function of its arguments; a
      null answer is None.
      - findSeries: a series by the release's clean title;
      - episodesByParseResult: the episodes a release covers, with their files;
      - isFirstOrLastEpisodeOfSeason: by series id, season and episode number;
      - bestQualityInHistory: the best quality ever grabbed, by episode id;
      - maxSize: the nominal maximum size of a tier. */
  datatype Providers = Providers(
    findSeries: string -> Option<Series>,
    episodesByParseResult: EpisodeParseResult -> seq<Episode>,
    isFirstOrLastEpisodeOfSeason: (int, int, int) -> bool,
    bestQualityInHistory: int -> Option<Quality>,
    maxSize: QualityType -> int)

}
