/** Properties of the release-acceptance rules that relate several calls or
    quantify over all inputs. */
module InventoryProperties {
  import opened Wrappers
  import opened Qualities
  import opened Repository
  import opened InventoryProvider

  // ---------------------------------------------------------------------
  // IsUpgrade

  /** Cutoff dominance: once the held quality reaches the cutoff, no
      candidate is an upgrade, not even one of a higher tier. */
  lemma CutoffDominates(current: Quality, cutOff: QualityType)
    requires current.tier >= cutOff
    ensures forall candidate :: !IsUpgrade(current, candidate, cutOff)
  {
  }

  /** Within one tier below the cutoff a proper replaces a non-proper and
      never the other way round. */
  lemma ProperReplacesSameTier(tier: QualityType, cutOff: QualityType)
    requires tier < cutOff
    ensures IsUpgrade(Quality(tier, false), Quality(tier, true), cutOff)
    ensures !IsUpgrade(Quality(tier, true), Quality(tier, false), cutOff)
    ensures !IsUpgrade(Quality(tier, false), Quality(tier, false), cutOff)
  {
  }

  /** As written, a proper is an upgrade of the very same proper quality:
      the equal-and-not-proper test lets an equal proper fall through to the
      final `return true`. */
  lemma IdenticalProperIsUpgrade(current: Quality, cutOff: QualityType)
    requires current.proper && current.tier < cutOff
    ensures IsUpgrade(current, current, cutOff)
  {
  }

  /** Two qualities upgrade each other only in that case: both proper and of
      one tier. Otherwise IsUpgrade is asymmetric. */
  lemma MutualUpgradeOnlyForIdenticalProper(a: Quality, b: Quality, cutOff: QualityType)
    requires IsUpgrade(a, b, cutOff) && IsUpgrade(b, a, cutOff)
    ensures a == b && a.proper
  {
  }

  /** Upgrading twice below the cutoff is an upgrade in one step. */
  lemma UpgradeTransitive(a: Quality, b: Quality, c: Quality, cutOff: QualityType)
    requires IsUpgrade(a, b, cutOff) && IsUpgrade(b, c, cutOff)
    ensures IsUpgrade(a, c, cutOff)
  {
  }

  // ---------------------------------------------------------------------
  // IsAcceptableSize

  /** A smaller release of the same episodes is accepted whenever a larger
      one is. */
  lemma AcceptableSizeMonotone(report: EpisodeParseResult, p: Providers, smaller: int)
    requires report.series.Some?
    requires IsAcceptableSize(report, p) && smaller <= report.size
    ensures IsAcceptableSize(report.(size := smaller), p)
  {
  }

  /** The multipliers compose: a single episode that opens or closes a season
      of an hour-long series may be four times the tier's base size. */
  lemma HourLongSeasonEdgeGetsFourTimes(report: EpisodeParseResult, p: Providers)
    requires report.series.Some?
    requires 50 <= report.series.value.runtime <= 65
    requires |report.episodeNumbers| == 1
    requires p.isFirstOrLastEpisodeOfSeason(report.series.value.seriesId, report.seasonNumber,
                                            report.episodeNumbers[0])
    ensures IsAcceptableSize(report, p) <==> report.size <= 4 * p.maxSize(report.quality.tier)
  {
  }

  /** A multi-episode release of a series that is not hour-long gets the
      base size once per episode and nothing more. */
  lemma MultiEpisodeGetsBasePerEpisode(report: EpisodeParseResult, p: Providers)
    requires report.series.Some?
    requires !(50 <= report.series.value.runtime <= 65)
    requires |report.episodeNumbers| >= 2
    ensures IsAcceptableSize(report, p) <==>
              report.size <= p.maxSize(report.quality.tier) * |report.episodeNumbers|
  {
  }

  /** With no episode numbers the ceiling is zero. */
  lemma NoEpisodeNumbersCeilingIsZero(report: EpisodeParseResult, p: Providers)
    requires report.series.Some? && |report.episodeNumbers| == 0
    ensures IsAcceptableSize(report, p) <==> report.size <= 0
  {
  }

  /** For a non-negative base size, covering one more episode never lowers
      the ceiling, from zero episodes upward, although the season-edge
      doubling is lost past one episode: two episodes get exactly what a
      doubled single one gets. */
  lemma CeilingGrowsWithEpisodes(maxSize: int, runtime: int, count: nat,
                                 firstOrLast: bool, nextFirstOrLast: bool)
    requires maxSize >= 0
    ensures SizeCeiling(maxSize, runtime, count, firstOrLast)
            <= SizeCeiling(maxSize, runtime, count + 1, nextFirstOrLast)
  {
  }

  // ---------------------------------------------------------------------
  // IsQualityNeeded

  /** All or nothing: one matched episode whose file or history the
      candidate does not upgrade rejects the whole release. */
  lemma OneBlockingEpisodeRejects(report: EpisodeParseResult, p: Providers, i: nat)
    requires report.series.Some?
    requires i < |p.episodesByParseResult(report)|
    requires !EpisodeAllows(p.episodesByParseResult(report)[i], report.quality,
                            report.series.value.qualityProfile.cutoff, p)
    ensures !IsQualityNeeded(report, p)
  {
  }

  /** A needed release is below the cutoff everywhere: every held file and
      every history quality of its episodes is of a tier below the cutoff and
      not above the candidate's. */
  lemma NeededReleaseIsBelowCutoff(report: EpisodeParseResult, p: Providers, i: nat)
    requires report.series.Some?
    requires IsQualityNeeded(report, p)
    requires i < |p.episodesByParseResult(report)|
    ensures var episode := p.episodesByParseResult(report)[i];
            var cutOff := report.series.value.qualityProfile.cutoff;
            && (episode.episodeFile.Some? ==>
                  && episode.episodeFile.value.quality < cutOff
                  && episode.episodeFile.value.quality <= report.quality.tier)
            && (p.bestQualityInHistory(episode.episodeId).Some? ==>
                  && p.bestQualityInHistory(episode.episodeId).value.tier < cutOff
                  && p.bestQualityInHistory(episode.episodeId).value.tier <= report.quality.tier)
  {
  }

  /** A release whose episodes hold nothing and have no history is needed
      exactly when its tier is allowed and its size is acceptable. */
  lemma FreshEpisodesNeedOnlyTierAndSize(report: EpisodeParseResult, p: Providers)
    requires report.series.Some?
    requires forall e :: e in p.episodesByParseResult(report) ==>
               e.episodeFile.None? && p.bestQualityInHistory(e.episodeId).None?
    ensures IsQualityNeeded(report, p) <==>
              report.quality.tier in report.series.value.qualityProfile.allowed
              && IsAcceptableSize(report, p)
  {
  }

  // ---------------------------------------------------------------------
  // IsMonitored

  /** A release whose episodes are all ignored, or that matches no episode,
      is not monitored. */
  lemma AllIgnoredNotMonitored(report: EpisodeParseResult, p: Providers)
    requires p.findSeries(report.cleanTitle).Some?
    requires forall e :: e in p.episodesByParseResult(report.(series := p.findSeries(report.cleanTitle))) ==> e.ignored
    ensures !IsMonitored(report, p).monitored
  {
  }
}
