/** The game rules of scripts/logic.js: how an Avoid Death roll and a Risk It All
    pair of dice are classified, and how many die faces lead to each result. */
module Outcome {
  import opened Values

  /** A face of a d12. */
  predicate IsFace(v: int) { 1 <= v <= 12 }

  datatype RiskResult = Hope | Fear | Critical

  /** _processRiskResult: the Hope die against the Fear die. */
  function ClassifyRisk(hope: int, fear: int): (r: RiskResult)
    ensures r == Hope <==> hope > fear
    ensures r == Fear <==> fear > hope
    ensures r == Critical <==> hope == fear
  {
    if hope > fear then Hope
    else if fear > hope then Fear
    else Critical
  }

  /** The setting key of the result image and of the result sound. */
  datatype AssetKeys = AssetKeys(resultKey: string, soundKey: string)

  function RiskKeys(r: RiskResult): AssetKeys
  {
    match r
    case Hope => AssetKeys("hopePath", "soundHope")
    case Fear => AssetKeys("fearPath", "soundFear")
    case Critical => AssetKeys("criticalPath", "soundCritical")
  }

  lemma RiskKeysInjective(a: RiskResult, b: RiskResult)
    ensures RiskKeys(a) == RiskKeys(b) <==> a == b
    ensures RiskKeys(a).resultKey == RiskKeys(b).resultKey <==> a == b
    ensures RiskKeys(a).soundKey == RiskKeys(b).soundKey <==> a == b
  {
  }

  /** Avoid Death: the bonus the Phoenix item adds to the d12. */
  function Bonus(hasPhoenix: bool): (b: int)
    ensures 0 <= b <= 1 && (b == 1 <==> hasPhoenix)
  {
    if hasPhoenix then 1 else 0
  }

  /** roll.total for the formula '1d12 + 1' or '1d12'. */
  function AvoidTotal(raw: int, hasPhoenix: bool): (total: int)
    ensures total - raw == Bonus(hasPhoenix)
  {
    raw + Bonus(hasPhoenix)
  }

  /** `level || 0`: a missing (or zero) level reads as 0. */
  function LevelOrZero(level: Option<int>): (l: int)
    ensures level.None? ==> l == 0
    ensures level.Some? ==> l == level.value
  {
    match level
    case None => 0
    case Some(v) => v
  }

  datatype AvoidResult = Scar | Safe

  /** The classification of an Avoid Death total against the actor's level. */
  function ClassifyAvoid(total: int, level: int): (r: AvoidResult)
    ensures r == Scar <==> total <= level
    ensures r == Safe <==> total > level
  {
    if total <= level then Scar else Safe
  }

  function AvoidKeys(r: AvoidResult): AssetKeys
  {
    match r
    case Scar => AssetKeys("avoidScarPath", "soundAvoidScar")
    case Safe => AssetKeys("avoidSafePath", "soundAvoidSafe")
  }

  /** Scar and Safe use different images and different sounds, and none of
      them is a Risk It All asset. */
  lemma AvoidKeysDistinct(a: AvoidResult, b: AvoidResult, r: RiskResult)
    ensures AvoidKeys(a).resultKey == AvoidKeys(b).resultKey <==> a == b
    ensures AvoidKeys(a).soundKey == AvoidKeys(b).soundKey <==> a == b
    ensures AvoidKeys(a).resultKey != RiskKeys(r).resultKey
    ensures AvoidKeys(a).soundKey != RiskKeys(r).soundKey
  {
  }

  /** The Scar rule, stated on the raw die: total <= level is raw <= level - bonus. */
  lemma ScarOnRaw(raw: int, hasPhoenix: bool, level: int)
    ensures ClassifyAvoid(AvoidTotal(raw, hasPhoenix), level) == Scar <==> raw <= level - Bonus(hasPhoenix)
  {
  }

  function Clamp(x: int, lo: int, hi: int): (c: int)
    requires lo <= hi
    ensures lo <= c <= hi
    ensures lo <= x <= hi ==> c == x
    ensures x < lo ==> c == lo
    ensures x > hi ==> c == hi
  {
    if x < lo then lo else if x > hi then hi else x
  }

  /** The number of raw faces 1..n whose Avoid Death total classifies as Scar. */
  function ScarFaces(n: nat, hasPhoenix: bool, level: int): nat
  {
    if n == 0 then 0
    else ScarFaces(n - 1, hasPhoenix, level)
         + (if ClassifyAvoid(AvoidTotal(n, hasPhoenix), level) == Scar then 1 else 0)
  }

  /** Among the faces 1..n exactly clamp(level - bonus, 0, n) are Scar. */
  lemma {:induction false} ScarFacesCount(n: nat, hasPhoenix: bool, level: int)
    ensures ScarFaces(n, hasPhoenix, level) == Clamp(level - Bonus(hasPhoenix), 0, n)
  {
    if n > 0 {
      ScarFacesCount(n - 1, hasPhoenix, level);
      ScarOnRaw(n, hasPhoenix, level);
    }
  }

  /** The count of a d12: the threshold ui.js displays. */
  lemma ScarFacesOfD12(hasPhoenix: bool, level: int)
    ensures ScarFaces(12, hasPhoenix, level) == Clamp(level - Bonus(hasPhoenix), 0, 12)
  {
    ScarFacesCount(12, hasPhoenix, level);
  }

  /** The number of Fear-die faces 1..n that give result r against the Hope face `hope`. */
  function FacesWith(r: RiskResult, hope: int, n: nat): nat
  {
    if n == 0 then 0
    else FacesWith(r, hope, n - 1) + (if ClassifyRisk(hope, n) == r then 1 else 0)
  }

  /** Closed forms of FacesWith for a Hope face in 1..n. */
  lemma {:induction false} FacesWithCount(hope: int, n: nat)
    requires hope >= 1
    ensures FacesWith(Hope, hope, n) == if hope - 1 < n then hope - 1 else n
    ensures FacesWith(Fear, hope, n) == if hope < n then n - hope else 0
    ensures FacesWith(Critical, hope, n) == if hope <= n then 1 else 0
  {
    if n > 0 {
      FacesWithCount(hope, n - 1);
    }
  }

  /** The number of (hope, fear) pairs in 1..m x 1..12 that give result r. */
  function PairsWith(r: RiskResult, m: nat): nat
  {
    if m == 0 then 0 else PairsWith(r, m - 1) + FacesWith(r, m, 12)
  }

  /** 1 + 2 + ... + k. */
  function Triangle(k: int): nat
  {
    if k <= 0 then 0 else k + Triangle(k - 1)
  }

  lemma {:induction false} PairsWithCount(m: nat)
    requires m <= 12
    ensures PairsWith(Hope, m) == Triangle(m - 1)
    ensures PairsWith(Fear, m) == Triangle(11) - Triangle(11 - m)
    ensures PairsWith(Critical, m) == m
  {
    if m > 0 {
      PairsWithCount(m - 1);
      var sides := 12;
      FacesWithCount(m, sides);
      assert Triangle(12 - m) == 12 - m + Triangle(11 - m);
    }
  }

  /** Over the 144 pairs of two d12: 66 Hope, 66 Fear, 12 Critical. */
  lemma RiskPairCounts()
    ensures PairsWith(Hope, 12) == 66
    ensures PairsWith(Fear, 12) == 66
    ensures PairsWith(Critical, 12) == 12
    ensures PairsWith(Hope, 12) + PairsWith(Fear, 12) + PairsWith(Critical, 12) == 144
  {
    TriangleEleven();
    PairsWithCount(12);
  }

  lemma TriangleEleven()
    ensures Triangle(11) == 66
  {
  }
}
