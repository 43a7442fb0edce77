# Release acceptance rules of the inventory provider

This project models the rules by which `InventoryProvider` decides whether a
parsed release (an `EpisodeParseResult`) should be downloaded:

- `IsMonitored` maps the release to a series by its clean title, attaches that
  series to the release, and accepts only a monitored series with at least one
  matched episode that is not ignored;
- `IsUpgrade` compares the quality already held with a candidate quality
  against the profile's cutoff tier;
- `IsAcceptableSize` bounds the release size by a per-tier base size, doubled
  for hour-long series, multiplied by the number of episodes, and doubled again
  for a single episode that opens or closes a season;
- `IsQualityNeeded` is the short-circuiting conjunction: tier allowed by the
  profile, then size, then every matched episode's held file and best history
  quality upgraded by the candidate.

Files:

- `wrappers.dfy`: `Option`, standing for a null reference.
- `qualities.dfy`: `Quality` (tier plus proper flag) and its ordering.
- `repository.dfy`: `Series`, `QualityProfile`, `Episode`, `EpisodeFile`,
  `EpisodeParseResult` and `Providers`. `Providers` holds the lookups into the
  series, episode, history and quality-type providers as total functions.
- `inventory.dfy`: the four operations.
- `properties.dfy`: lemmas relating calls and quantifying over all inputs.

The model is functional. The providers are passed in as a `Providers` value.
`IsMonitored` returns its verdict together with the release as it stands
afterwards, instead of assigning `parseResult.Series`. The episode lookup in
`IsMonitored` is handed that updated release, as in the source.

The `Quality` class and the `QualityTypes` enumeration are not part of this
model, so two things are assumed:

- A tier is the enumeration's integer value, and tiers compare as integers.
- `Quality`'s `>` and `==` both come from one three-way comparison: `>` is
  "positive" and `==` is "zero". `Qualities.Compare` fixes one such comparison:
  tier first, then proper above non-proper. The upgrade rule is proved for every
  comparison consistent with the tier order (`Qualities.TierConsistent`),
  including a comparison on tier alone. So the results do not depend on which
  such comparison the operators use. They would change if the two operators
  were defined independently. With `>` on tier alone and `==` on tier and
  proper, a held proper would be replaced by a same-tier non-proper.

Two consequences of the order of tests in
`NzbDrone.Core/Providers/InventoryProvider.cs`:

- An identical proper candidate is an upgrade. Line 132 rejects an equal
  quality only when the candidate is not proper. So a candidate equal to a
  held proper falls through to `return true` at line 139; see
  `InventoryProperties.IdenticalProperIsUpgrade`.
- `IsMonitored` attaches the series as soon as it is found (line 47). That is
  before the monitored test (line 49), so an unmonitored series is attached too.

## Model

| member | source | states |
|---|---|---|
| InventoryProvider.AnyNotIgnored | NzbDrone.Core/Providers/InventoryProvider.cs:57-58 | true exactly when some episode of the list is not ignored |
| InventoryProvider.IsMonitored | NzbDrone.Core/Providers/InventoryProvider.cs:37-65 | unmapped title: false, and the release is left unchanged; mapped title: the series is attached even when it is unmonitored; true iff the series is found, is monitored, and some episode matched for the updated release is not ignored; a true verdict leaves a series attached |
| InventoryProvider.IsUpgradeUnderAnyOrder | NzbDrone.Core/Providers/InventoryProvider.cs:115-140 | for every comparison consistent with the tier order, the source's rule chain decides exactly: held tier below cutoff, and candidate of a higher tier or of the same tier and proper |
| InventoryProvider.IsUpgrade | NzbDrone.Core/Providers/InventoryProvider.cs:115-140 | held tier at or above cutoff gives false whatever the candidate; below cutoff a strictly greater candidate gives true; a strictly greater held quality, or an equal one with a non-proper candidate, gives false; true only for a strictly better candidate or a same-tier proper; iff the tier rule above |
| InventoryProvider.IsAcceptableSize | NzbDrone.Core/Providers/InventoryProvider.cs:142-174 | true iff size is at most base × (2 if runtime in 50..65 else 1) × episode count × (2 if exactly one episode and it is first or last of its season else 1) |
| InventoryProvider.EpisodesAllow | NzbDrone.Core/Providers/InventoryProvider.cs:88-108 | the early-exit loop over the matched episodes passes iff every episode's held file (when present) and best history quality (when present) is upgraded by the candidate |
| InventoryProvider.IsQualityNeeded | NzbDrone.Core/Providers/InventoryProvider.cs:74-112 | a tier outside the profile's allowed list gives false whatever the size, files or history; true iff tier allowed, size acceptable, and every matched episode's file and history are upgraded by the candidate |
| Qualities.Compare | NzbDrone.Core/Providers/InventoryProvider.cs:123-132 | the assumed Quality ordering behind `>` and `==`: zero iff the qualities are equal, positive iff higher tier or same tier with only the first proper |
| Qualities.CompareIsTierConsistent | NzbDrone.Core/Providers/InventoryProvider.cs:123-132 | the assumed ordering is one of the tier-consistent comparisons the upgrade rule is proved for |
| Qualities.CompareIsTotalOrder | NzbDrone.Core/Providers/InventoryProvider.cs:123-132 | the assumed ordering is reflexive, antisymmetric, transitive and total |
| InventoryProperties.CutoffDominates | NzbDrone.Core/Providers/InventoryProvider.cs:117-121 | a held quality at or above the cutoff is upgraded by no candidate at all |
| InventoryProperties.ProperReplacesSameTier | NzbDrone.Core/Providers/InventoryProvider.cs:123-139 | below the cutoff a same-tier proper replaces a non-proper, a non-proper does not replace a proper, and an equal non-proper is no upgrade |
| InventoryProperties.IdenticalProperIsUpgrade | NzbDrone.Core/Providers/InventoryProvider.cs:132-139 | as written, a held proper below the cutoff is "upgraded" by the identical proper quality |
| InventoryProperties.MutualUpgradeOnlyForIdenticalProper | NzbDrone.Core/Providers/InventoryProvider.cs:115-140 | if two qualities upgrade each other they are the same proper quality; otherwise upgrading is asymmetric |
| InventoryProperties.UpgradeTransitive | NzbDrone.Core/Providers/InventoryProvider.cs:115-140 | an upgrade of an upgrade is an upgrade of the original held quality |
| InventoryProperties.AcceptableSizeMonotone | NzbDrone.Core/Providers/InventoryProvider.cs:170-173 | if a size is accepted, every smaller size of the same release is accepted |
| InventoryProperties.HourLongSeasonEdgeGetsFourTimes | NzbDrone.Core/Providers/InventoryProvider.cs:153-167 | a single first-or-last episode of an hour-long series is accepted iff its size is at most 4 × the base size |
| InventoryProperties.MultiEpisodeGetsBasePerEpisode | NzbDrone.Core/Providers/InventoryProvider.cs:153-167 | a release of two or more episodes of a series that is not hour-long is accepted iff its size is at most base × episode count |
| InventoryProperties.NoEpisodeNumbersCeilingIsZero | NzbDrone.Core/Providers/InventoryProvider.cs:158-173 | with no episode numbers the ceiling is 0, so only a size of at most 0 passes |
| InventoryProperties.CeilingGrowsWithEpisodes | NzbDrone.Core/Providers/InventoryProvider.cs:153-167 | for a non-negative base size, one more episode never lowers the ceiling, from zero episodes upward, although the season-edge doubling is lost past one episode |
| InventoryProperties.OneBlockingEpisodeRejects | NzbDrone.Core/Providers/InventoryProvider.cs:72-73 | one matched episode whose file or history the candidate does not upgrade rejects the whole release |
| InventoryProperties.NeededReleaseIsBelowCutoff | NzbDrone.Core/Providers/InventoryProvider.cs:88-111 | in a needed release, every held file and history quality has a tier below the cutoff and not above the candidate's tier |
| InventoryProperties.FreshEpisodesNeedOnlyTierAndSize | NzbDrone.Core/Providers/InventoryProvider.cs:74-111 | when no matched episode has a file or a history entry, the release is needed iff its tier is allowed and its size is acceptable |
| InventoryProperties.AllIgnoredNotMonitored | NzbDrone.Core/Providers/InventoryProvider.cs:55-64 | a release whose matched episodes are all ignored, or that matches none, is not monitored |

## Left out

- Logging (NLog) and the two constructors with dependency injection (lines 19-34): they have no behaviour.
- The series, episode, history and quality-type providers: they are database-backed. Each is a total function in `Providers`. The `includeEpisodeFile` argument of `GetEpisodesByParseResult` is dropped, because the source always passes `true`.
- A missing quality-type definition: `_qualityTypeProvider.Get(...)` returning null makes the source throw on `.MaxSize`. The model's `maxSize` lookup always answers.
- `IsQualityNeeded` and `IsAcceptableSize` read `parseResult.Series` without a null check. The model requires the series to be attached instead of modelling the resulting exception.
- `long` overflow in the size multiplication: sizes are unbounded integers.
- The internals of the `Quality` operators and the `QualityTypes` values: the file that defines them is not part of this model. The ordering is an assumption, stated in `qualities.dfy`: `>` and `==` are taken to come from one comparison.
- frontend/src/Movie/History/MovieHistoryTableContent.js: it renders a history table and has no decision logic.
