/** Release quality: a tier of the QualityTypes enumeration together with the
    "proper" flag that marks a corrected re-release of the same tier.

    The Quality class and the QualityTypes enumeration (NzbDrone.Core.Model and
    NzbDrone.Core.Repository.Quality) are not part of this model. Two things
    are therefore ASSUMED here rather than derived:
    - a tier is represented by the enumeration's underlying integer value, and
      tiers compare by that integer, as C# compares enum values;
    - the `>` and `==` operators of Quality come from ONE three-way
      comparison (`>` is positive, `==` is zero). If the two operators were
      defined independently the rule could differ: with `>` on tiers alone
      and `==` on tier and proper, a held proper would be replaced by a
      same-tier non-proper.
      `Compare` fixes one such comparison (tier first, then proper above not
      proper), but the upgrade rule is proved for EVERY comparison that is
      consistent with the tier order (see `TierConsistent`), so nothing rests
      on the choice. */
module Qualities {

  /** A QualityTypes member, by its underlying integer value. */
  type QualityType = int

  datatype Quality = Quality(tier: QualityType, proper: bool)

  /** A three-way comparison: negative, zero or positive as the first argument
      is below, level with or above the second. */
  type Comparator = (Quality, Quality) -> int

  /** The comparisons the source's Quality operators may stand for: a higher
      tier always ranks higher, the comparison is antisymmetric and reflexive,
      and within one tier a proper never ranks below a non-proper. Both the
      lexicographic order and a tier-only order qualify. */
  ghost predicate TierConsistent(cmp: Comparator) {
    && (forall a: Quality, b: Quality :: a.tier < b.tier ==> cmp(a, b) < 0)
    && (forall a, b :: cmp(a, b) < 0 <==> cmp(b, a) > 0)
    && (forall a :: cmp(a, a) == 0)
    && (forall a: Quality, b: Quality :: a.tier == b.tier && a.proper && !b.proper ==> cmp(a, b) >= 0)
  }

  /** The assumed ordering of Quality: by tier, and within a tier a proper
      ranks above a non-proper. */
  function Compare(a: Quality, b: Quality): (c: int)
    ensures -1 <= c <= 1
    ensures c == 0 <==> a == b
    ensures c > 0 <==> a.tier > b.tier || (a.tier == b.tier && a.proper && !b.proper)
  {
    if a.tier < b.tier then -1
    else if a.tier > b.tier then 1
    else if a.proper == b.proper then 0
    else if a.proper then 1
    else -1
  }

  /** `Compare(a, b) <= 0`, the non-strict order it induces. */
  predicate AtMost(a: Quality, b: Quality) {
    Compare(a, b) <= 0
  }

  lemma CompareIsTierConsistent()
    ensures TierConsistent(Compare)
  {
  }

  /** The assumed ordering is a total order: reflexive, antisymmetric,
      transitive and total. */
  lemma CompareIsTotalOrder(a: Quality, b: Quality, c: Quality)
    ensures AtMost(a, a)
    ensures AtMost(a, b) && AtMost(b, a) ==> a == b
    ensures AtMost(a, b) && AtMost(b, c) ==> AtMost(a, c)
    ensures AtMost(a, b) || AtMost(b, a)
  {
  }
}
