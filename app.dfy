/**
 * The risk calculator of the page (App.tsx): the tier classifier, the short tier
 * labels cut from the strategy titles, and the observation state that the slider,
 * the five risk-factor checkboxes and the tier tabs update.
 */
module App {
  import opened Types
  import opened Constants

  // ---------------------------------------------------------------------------
  // Classifier
  // ---------------------------------------------------------------------------

  /**
   * currentStrategy: the tier for a serum potassium (mmol/L) and a risk-factor count.
   * Rules are tried in order, all comparisons strict: above 5.5 is Intensive; else
   * above 5.0, or two or more risk factors, is Advanced; else Basic.
   */
  function Classify(potassium: real, riskFactorCount: int): (t: StrategyLevel)
    ensures t == Intensive <==> potassium > 5.5
    ensures t == Advanced <==> 5.0 < potassium <= 5.5 || (potassium <= 5.5 && riskFactorCount >= 2)
    ensures t == Basic <==> potassium <= 5.0 && riskFactorCount < 2
  {
    if potassium > 5.5 then Intensive
    else if potassium > 5.0 || riskFactorCount >= 2 then Advanced
    else Basic
  }

  /** The tier the potassium reading alone calls for. */
  function PotassiumTier(potassium: real): StrategyLevel
  {
    if potassium > 5.5 then Intensive else if potassium > 5.0 then Advanced else Basic
  }

  /** The tier the risk-factor count alone calls for. */
  function RiskFactorTier(riskFactorCount: int): StrategyLevel
  {
    if riskFactorCount >= 2 then Advanced else Basic
  }

  /** The ordered rules pick the more severe of the two single-factor tiers. */
  lemma ClassifyIsWorseOfFactors(potassium: real, riskFactorCount: int)
    ensures Classify(potassium, riskFactorCount) == Worse(PotassiumTier(potassium), RiskFactorTier(riskFactorCount))
  {
  }

  /** Raising the potassium or the count never lowers the tier. */
  lemma ClassifyMonotone(k1: real, n1: int, k2: real, n2: int)
    requires k1 <= k2 && n1 <= n2
    ensures Classify(k1, n1).Rank() <= Classify(k2, n2).Rank()
  {
  }

  /** The thresholds belong to the lower tier. */
  lemma ClassifyBoundaries(riskFactorCount: int)
    ensures Classify(5.5, riskFactorCount) == Advanced
    ensures riskFactorCount < 2 ==> Classify(5.0, riskFactorCount) == Basic
  {
  }

  // ---------------------------------------------------------------------------
  // Short tier labels: title.split('：')[0]
  // ---------------------------------------------------------------------------

  /**
   * `s.split(sep)[0]`: the part of `s` before the first `sep`, or all of `s` when
   * `sep` does not occur.
   */
  function SplitHead(s: string, sep: char): (r: string)
    ensures r <= s
    ensures sep !in r
    ensures |r| < |s| ==> s[|r|] == sep
    decreases |s|
  {
    if s == [] || s[0] == sep then [] else [s[0]] + SplitHead(s[1..], sep)
  }

  /** The head is determined by the position of the first separator. */
  lemma SplitHeadAt(s: string, sep: char, i: nat)
    requires i <= |s|
    requires sep !in s[..i]
    requires i < |s| ==> s[i] == sep
    ensures SplitHead(s, sep) == s[..i]
  {
  }

  /**
   * The label of a tier, `STRATEGIES[level].title.split('：')[0]`: the badge text and
   * the tab text. Every title contains the separator, and the label is the part of the
   * title that ends just before its first occurrence.
   */
  function TierLabel(level: StrategyLevel): (r: string)
    ensures r <= StrategyFor(level).title
    ensures TitleSeparator !in r
    ensures |r| < |StrategyFor(level).title| && StrategyFor(level).title[|r|] == TitleSeparator
  {
    TitleSeparatorAtFour(level);
    SplitHead(StrategyFor(level).title, TitleSeparator)
  }

  /** Each label is a non-empty proper prefix of its tier's title. */
  lemma TierLabelProperPrefix(level: StrategyLevel)
    ensures TierLabel(level) < StrategyFor(level).title
    ensures |TierLabel(level)| > 0
  {
  }

  /** Every title's separator sits at index 4, so each label is the title's first four characters. */
  lemma TierLabelIsFourChars(level: StrategyLevel)
    ensures |StrategyFor(level).title| > 4
    ensures TierLabel(level) == StrategyFor(level).title[..4]
  {
    SplitHeadAt(StrategyFor(level).title, TitleSeparator, 4);
  }

  /** The three tabs carry three different labels. */
  lemma TierLabelsDistinct(a: StrategyLevel, b: StrategyLevel)
    requires a != b
    ensures TierLabel(a) != TierLabel(b)
  {
  }

  /** The tab bar: the keys of STRATEGIES in declaration order, mildest first. */
  function TabLevels(): (r: seq<StrategyLevel>)
    ensures |r| == 3
    ensures forall i :: 0 <= i < |r| ==> r[i].Rank() == i
    ensures forall level :: level in r <==> level in Strategies()
  {
    [Basic, Advanced, Intensive]
  }

  /** Every tier has a tab. */
  lemma TabLevelsCover(level: StrategyLevel)
    ensures level in TabLevels()
  {
    match level
    case Basic =>
    case Advanced =>
    case Intensive =>
  }

  // ---------------------------------------------------------------------------
  // Observation state
  // ---------------------------------------------------------------------------

  /** The slider's bounds and the presets, in tenths of a mmol/L. */
  const SliderMinTenths: int := 30
  const SliderMaxTenths: int := 70
  const InitialTenths: int := 45

  /** A slider position in tenths, as the mmol/L value the page compares. */
  function Mmol(tenths: int): real
  {
    tenths as real / 10.0
  }

  /** The five risk-factor checkboxes' captions. */
  function RiskFactors(): (r: seq<string>)
    ensures |r| == 5
  {
    [ "晚期 CKD (Stage 4-5)",
      "服用影響血鉀藥物 (如 ACEi, ARB, MRA)",
      "合併糖尿病或代謝性酸中毒",
      "長期便秘 (腸道排鉀減少)",
      "飲食中鉀來源不明 (常食加工食品)" ]
  }

  /** The number of checked boxes. */
  function CountChecked(boxes: seq<bool>): (n: nat)
    ensures n <= |boxes|
    ensures n == 0 <==> forall i :: 0 <= i < |boxes| ==> !boxes[i]
    ensures n == |boxes| <==> forall i :: 0 <= i < |boxes| ==> boxes[i]
  {
    if boxes == [] then 0
    else (if boxes[0] then 1 else 0) + CountChecked(boxes[1..])
  }

  /** Flipping one box moves the number of checked boxes by exactly one. */
  lemma {:induction false} CountCheckedFlip(boxes: seq<bool>, i: nat)
    requires i < |boxes|
    ensures CountChecked(boxes[i := !boxes[i]]) == CountChecked(boxes) + (if boxes[i] then -1 else 1)
  {
    if i > 0 {
      assert boxes[i := !boxes[i]][1..] == boxes[1..][i - 1 := !boxes[i]];
      CountCheckedFlip(boxes[1..], i - 1);
    }
  }

  /**
   * The tab presets, in tenths: 4.5 for Basic, 5.2 for Advanced, 6.0 for Intensive.
   * Selecting the Advanced or Intensive tab makes that tier current whatever the
   * count; the Basic preset gives Basic exactly when fewer than two factors are checked.
   */
  function TabPresetTenths(level: StrategyLevel): (tenths: int)
    ensures SliderMinTenths <= tenths <= SliderMaxTenths
    ensures level != Basic ==> forall n :: Classify(Mmol(tenths), n) == level
    ensures level == Basic ==> forall n :: Classify(Mmol(tenths), n) == Basic <==> n < 2
  {
    match level
    case Basic => 45
    case Advanced => 52
    case Intensive => 60
  }

  /**
   * The page's state. `potassiumTenths` is potassiumLevel in tenths of a mmol/L;
   * `boxes` is the checked state of the five (uncontrolled) checkboxes, which the
   * page never stores; each handler call reads one box's new state to update
   * `riskFactorCount`.
   */
  class RiskAssessment {
    var potassiumTenths: int
    var riskFactorCount: int
    var boxes: seq<bool>

    /** The slider stays on its grid and the count matches the checked boxes. */
    ghost predicate Valid()
      reads this
    {
      SliderMinTenths <= potassiumTenths <= SliderMaxTenths &&
      |boxes| == |RiskFactors()| &&
      riskFactorCount == CountChecked(boxes)
    }

    /** potassiumLevel, in mmol/L. */
    function PotassiumLevel(): real
      reads this
    {
      Mmol(potassiumTenths)
    }

    /**
     * currentStrategy, in terms of the slider position and the checked boxes: above
     * 5.5 is Intensive; up to 5.5, above 5.0 or with two boxes checked is Advanced;
     * otherwise Basic.
     */
    function CurrentStrategy(): (t: StrategyLevel)
      reads this
      ensures Valid() ==> (t == Intensive <==> potassiumTenths > 55)
      ensures Valid() ==> (t == Advanced <==> potassiumTenths <= 55 && (potassiumTenths > 50 || CountChecked(boxes) >= 2))
      ensures Valid() ==> (t == Basic <==> potassiumTenths <= 50 && CountChecked(boxes) < 2)
    {
      Classify(PotassiumLevel(), riskFactorCount)
    }

    /** The badge text: a non-empty proper prefix of the current tier's title. */
    function BadgeLabel(): (r: string)
      reads this
      ensures 0 < |r| && r < StrategyFor(CurrentStrategy()).title
    {
      TierLabelProperPrefix(CurrentStrategy());
      TierLabel(CurrentStrategy())
    }

    /** Initial render: 4.5 mmol/L, no box checked, so the Basic tier. */
    constructor ()
      ensures Valid()
      ensures potassiumTenths == InitialTenths && riskFactorCount == 0
      ensures boxes == [false, false, false, false, false]
      ensures CurrentStrategy() == Basic
    {
      potassiumTenths := InitialTenths;
      riskFactorCount := 0;
      boxes := [false, false, false, false, false];
    }

    /** The slider's onChange: any position on the 3.0..7.0 grid. */
    method SetPotassium(tenths: int)
      requires Valid()
      requires SliderMinTenths <= tenths <= SliderMaxTenths
      modifies this
      ensures Valid()
      ensures potassiumTenths == tenths
      ensures riskFactorCount == old(riskFactorCount) && boxes == old(boxes)
    {
      potassiumTenths := tenths;
    }

    /**
     * A click on checkbox `i`: the box flips, then the handler adds one if it is now
     * checked and subtracts one if not. The count stays the number of checked boxes.
     */
    method ToggleFactor(i: nat)
      requires Valid()
      requires i < |boxes|
      modifies this
      ensures Valid()
      ensures boxes == old(boxes)[i := !old(boxes)[i]]
      ensures riskFactorCount == old(riskFactorCount) + (if boxes[i] then 1 else -1)
      ensures 0 <= riskFactorCount <= |RiskFactors()|
      ensures potassiumTenths == old(potassiumTenths)
    {
      CountCheckedFlip(boxes, i);
      boxes := boxes[i := !boxes[i]];
      riskFactorCount := if boxes[i] then riskFactorCount + 1 else riskFactorCount - 1;
    }

    /** A click on a tier tab: the slider jumps to that tier's preset. */
    method SelectTab(level: StrategyLevel)
      requires Valid()
      modifies this
      ensures Valid()
      ensures potassiumTenths == TabPresetTenths(level)
      ensures riskFactorCount == old(riskFactorCount) && boxes == old(boxes)
      ensures level != Basic ==> CurrentStrategy() == level
      ensures level == Basic ==> (CurrentStrategy() == Basic <==> riskFactorCount < 2)
    {
      potassiumTenths := TabPresetTenths(level);
    }
  }
}
