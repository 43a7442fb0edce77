/** The release-acceptance rules of InventoryProvider: whether a parsed
    release belongs to a monitored series, whether its size is plausible, and
    whether its quality is an upgrade over what is already held or was
    already grabbed. Logging is dropped; every provider call is a lookup in
    `Providers`. */
module InventoryProvider {
  import opened Wrappers
  import opened Qualities
  import opened Repository

  // ---------------------------------------------------------------------
  // IsMonitored

  /** What IsMonitored hands back: its verdict, and the release as it stands
      afterwards (with the series attached once one was found). */
  datatype Monitoring = Monitoring(monitored: bool, report: EpisodeParseResult)

  /** LINQ's `Any(episode => !episode.Ignored)`. */
  function AnyNotIgnored(episodes: seq<Episode>): (r: bool)
    ensures r <==> exists i :: 0 <= i < |episodes| && !episodes[i].ignored
  {
    if |episodes| == 0 then false
    else if !episodes[0].ignored then true
    else
      var rest := AnyNotIgnored(episodes[1..]);
      assert forall i :: 0 <= i < |episodes| - 1 ==> episodes[1..][i] == episodes[i + 1];
      rest
  }

  /** Maps the release to a series by its clean title and decides whether it
      is wanted at all. Instead of assigning `parseResult.Series`, the release
      with the series attached is returned beside the verdict. */
  function IsMonitored(report: EpisodeParseResult, p: Providers): (r: Monitoring)
    // an unmapped release is rejected and left as it was
    ensures p.findSeries(report.cleanTitle).None? ==> !r.monitored && r.report == report
    // a mapped release gets its series attached, monitored or not
    ensures p.findSeries(report.cleanTitle).Some? ==>
              r.report == report.(series := p.findSeries(report.cleanTitle))
    ensures r.monitored <==>
              && p.findSeries(report.cleanTitle).Some?
              && p.findSeries(report.cleanTitle).value.monitored
              && exists i :: 0 <= i < |p.episodesByParseResult(r.report)|
                               && !p.episodesByParseResult(r.report)[i].ignored
    // a monitored release can go on to IsQualityNeeded
    ensures r.monitored ==> r.report.series.Some?
  {
    match p.findSeries(report.cleanTitle)
    case None => Monitoring(false, report)
    case Some(series) =>
      var attached := report.(series := Some(series));
      if !series.monitored then Monitoring(false, attached)
      else Monitoring(AnyNotIgnored(p.episodesByParseResult(attached)), attached)
  }

  // ---------------------------------------------------------------------
  // IsUpgrade

  /** The upgrade rule stated directly on tiers: the held quality is below the
      cutoff, and the candidate is of a higher tier, or of the same tier and a
      proper. */
  predicate UpgradeRule(current: Quality, candidate: Quality, cutOff: QualityType) {
    && current.tier < cutOff
    && (candidate.tier > current.tier || (candidate.tier == current.tier && candidate.proper))
  }

  /** The rule chain of IsUpgrade, in the source's order, over a comparison
      `cmp` standing for Quality's `>` (cmp > 0) and `==` (cmp == 0). */
  function IsUpgradeUnder(cmp: Comparator, current: Quality, candidate: Quality, cutOff: QualityType): bool {
    if current.tier >= cutOff then false
    else if cmp(candidate, current) > 0 then true
    else if cmp(current, candidate) > 0 then false
    else if cmp(current, candidate) == 0 && !candidate.proper then false
    else true
  }

  /** Whatever comparison the Quality operators implement, as long as it is
      consistent with the tier order, the rule chain decides the same thing. */
  lemma IsUpgradeUnderAnyOrder(cmp: Comparator, current: Quality, candidate: Quality, cutOff: QualityType)
    requires TierConsistent(cmp)
    ensures IsUpgradeUnder(cmp, current, candidate, cutOff) <==> UpgradeRule(current, candidate, cutOff)
  {
  }

  /** Whether `candidate` should replace `current` for an episode whose
      profile stops upgrading at `cutOff`. */
  function IsUpgrade(current: Quality, candidate: Quality, cutOff: QualityType): (r: bool)
    // a held quality at or above the cutoff is never replaced
    ensures current.tier >= cutOff ==> !r
    // below the cutoff a strictly better candidate is always taken
    ensures current.tier < cutOff && Compare(candidate, current) > 0 ==> r
    // a strictly worse candidate, or the same quality without proper, is not
    ensures Compare(current, candidate) > 0 ==> !r
    ensures Compare(current, candidate) == 0 && !candidate.proper ==> !r
    ensures r ==> Compare(candidate, current) > 0 || (candidate.tier == current.tier && candidate.proper)
    ensures r <==> UpgradeRule(current, candidate, cutOff)
  {
    CompareIsTierConsistent();
    IsUpgradeUnderAnyOrder(Compare, current, candidate, cutOff);
    IsUpgradeUnder(Compare, current, candidate, cutOff)
  }

  // ---------------------------------------------------------------------
  // IsAcceptableSize

  /** An hour-long series (runtime 50..65 minutes) doubles the ceiling. */
  function RuntimeMultiplier(runtime: int): int {
    if 50 <= runtime <= 65 then 2 else 1
  }

  /** A single-episode release of a season's first or last episode doubles it. */
  function SeasonEdgeMultiplier(episodeCount: nat, firstOrLast: bool): int {
    if episodeCount == 1 && firstOrLast then 2 else 1
  }

  /** The size ceiling as one product of independent factors. */
  function SizeCeiling(maxSize: int, runtime: int, episodeCount: nat, firstOrLast: bool): int {
    maxSize * RuntimeMultiplier(runtime) * episodeCount * SeasonEdgeMultiplier(episodeCount, firstOrLast)
  }

  /** Whether a single-episode release is of its season's first or last
      episode; the lookup is only made for a single episode. */
  predicate SingleSeasonEdge(report: EpisodeParseResult, series: Series, p: Providers) {
    && |report.episodeNumbers| == 1
    && p.isFirstOrLastEpisodeOfSeason(series.seriesId, report.seasonNumber, report.episodeNumbers[0])
  }

  /** Whether the release is no larger than the ceiling for its tier, the
      series' runtime, the number of episodes and the season position. */
  function IsAcceptableSize(report: EpisodeParseResult, p: Providers): (r: bool)
    requires report.series.Some?
    ensures r <==> report.size <= SizeCeiling(p.maxSize(report.quality.tier),
                                              report.series.value.runtime,
                                              |report.episodeNumbers|,
                                              SingleSeasonEdge(report, report.series.value, p))
  {
    var series := report.series.value;
    var maxSize := p.maxSize(report.quality.tier);
    var maxSize := if series.runtime >= 50 && series.runtime <= 65 then maxSize * 2 else maxSize;
    var maxSize := maxSize * |report.episodeNumbers|;
    var maxSize :=
      if |report.episodeNumbers| == 1
         && p.isFirstOrLastEpisodeOfSeason(series.seriesId, report.seasonNumber, report.episodeNumbers[0])
      then maxSize * 2
      else maxSize;
    !(report.size > maxSize)
  }

  // ---------------------------------------------------------------------
  // IsQualityNeeded

  /** One matched episode does not stand in the way: its held file, if any,
      and its best history quality, if any, are both upgraded by `candidate`. */
  predicate EpisodeAllows(episode: Episode, candidate: Quality, cutOff: QualityType, p: Providers) {
    && (episode.episodeFile.Some? ==>
          IsUpgrade(Quality(episode.episodeFile.value.quality, episode.episodeFile.value.proper), candidate, cutOff))
    && (p.bestQualityInHistory(episode.episodeId).Some? ==>
          IsUpgrade(p.bestQualityInHistory(episode.episodeId).value, candidate, cutOff))
  }

  /** The foreach loop of IsQualityNeeded: stops at the first episode that
      does not allow the candidate. */
  function EpisodesAllow(episodes: seq<Episode>, candidate: Quality, cutOff: QualityType, p: Providers): (r: bool)
    ensures r <==> forall i :: 0 <= i < |episodes| ==> EpisodeAllows(episodes[i], candidate, cutOff, p)
  {
    if |episodes| == 0 then true
    else if !EpisodeAllows(episodes[0], candidate, cutOff, p) then false
    else
      var rest := EpisodesAllow(episodes[1..], candidate, cutOff, p);
      assert forall i :: 0 <= i < |episodes| - 1 ==> episodes[1..][i] == episodes[i + 1];
      rest
  }

  /** Whether a release of a mapped series is wanted at its quality. The
      source dereferences the attached series unchecked, hence the
      precondition (IsMonitored establishes it). */
  function IsQualityNeeded(report: EpisodeParseResult, p: Providers): (r: bool)
    requires report.series.Some?
    // a tier the profile does not allow is rejected, whatever else holds
    ensures report.quality.tier !in report.series.value.qualityProfile.allowed ==> !r
    // otherwise all of: size, and every matched episode's file and history
    ensures r <==>
              && report.quality.tier in report.series.value.qualityProfile.allowed
              && IsAcceptableSize(report, p)
              && forall i :: 0 <= i < |p.episodesByParseResult(report)| ==>
                   EpisodeAllows(p.episodesByParseResult(report)[i], report.quality,
                                 report.series.value.qualityProfile.cutoff, p)
  {
    var profile := report.series.value.qualityProfile;
    if report.quality.tier !in profile.allowed then false
    else
      var cutOff := profile.cutoff;
      if !IsAcceptableSize(report, p) then false
      else EpisodesAllow(p.episodesByParseResult(report), report.quality, cutOff, p)
  }
}
