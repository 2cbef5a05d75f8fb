/** The page's static tables: one strategy per tier, the additive list and the chart data. */
module Constants {
  import opened Types

  /** The full-width colon that separates a strategy title's short label from its subtitle. */
  const TitleSeparator: char := '：'

  /**
   * STRATEGIES: a record keyed by the three tiers, each with exactly four tips.
   */
  function Strategies(): (m: map<StrategyLevel, DietaryStrategy>)
    ensures m.Keys == {Basic, Advanced, Intensive}
    ensures forall level :: level in m ==> |m[level].tips| == 4
  {
    map[
      Basic := DietaryStrategy(
        "基礎策略：建立健康飲食型態",
        "專注於減少加工食品攝取與份量控制，適合大部分腎友。",
        "減少高添加鉀食品暴露，並透過植物性纖維緩解血鉀上升速度。",
        [ "包含至少三類食物（蔬菜、水果、全穀、蛋白質）的平衡餐。",
          "盡量親自烹飪，減少外食與便利食品。",
          "以白水、綠茶或花草茶代替含添加劑的果汁與氣泡飲。",
          "嚴格遵守醫生建議的食物份量。" ]),
      Advanced := DietaryStrategy(
        "進階策略：精確篩選與處理",
        "涉及閱讀食品標籤與運用烹飪技術減少食物中的鉀。",
        "直接限制高鉀來源，並利用鉀的水溶性進行去鉀化處理。",
        [ "絕對避免使用「低鈉鹽」（通常含有氯化鉀 KCl）。",
          "檢查成分清單，避開含有「Potassium」或「鉀」字眼的添加劑。",
          "蔬菜與肉類先切片、浸泡並汆燙（5-10分鐘）後再烹調，且不喝湯。",
          "避開「注脂肉」或預先醃漬的肉品（常含磷酸鉀）。" ]),
      Intensive := DietaryStrategy(
        "強化策略：個人化深度管理",
        "針對高風險或已出現高鉀血症的患者，進行嚴格的飲食監控。",
        "針對高風險添加劑進行精確規避，並由營養師進行深度飲食分析。",
        [ "詳細記錄三至五天的飲食日記供醫療團隊分析。",
          "直接規避含有氯化鉀、磷酸鉀、檸檬酸鉀、乳酸鉀的高風險加工食品。",
          "由腎臟科專業營養師進行個人化代換指導。",
          "定期追蹤血鉀濃度與用藥（如 RAS 阻斷劑、RAASi）的交互影響。" ])
    ]
  }

  /** Every tier has an entry, so `STRATEGIES[level]` is defined for every level. */
  lemma StrategiesTotal(level: StrategyLevel)
    ensures level in Strategies()
  {
    match level
    case Basic =>
    case Advanced =>
    case Intensive =>
  }

  /** The lookup `STRATEGIES[level]`. */
  function StrategyFor(level: StrategyLevel): (s: DietaryStrategy)
    ensures |s.tips| == 4
  {
    StrategiesTotal(level);
    Strategies()[level]
  }

  /** Every title has four characters before its first separator. */
  lemma TitleSeparatorAtFour(level: StrategyLevel)
    ensures |StrategyFor(level).title| > 4 && StrategyFor(level).title[4] == TitleSeparator
    ensures TitleSeparator !in StrategyFor(level).title[..4]
  {
    match level
    case Basic =>
    case Advanced =>
    case Intensive =>
  }

  /** ADDITIVES: the four potassium additives the page warns about. */
  function Additives(): (r: seq<FoodAdditive>)
    ensures |r| == 4
    ensures forall i, j :: 0 <= i < j < |r| ==> r[i].name != r[j].name
  {
    [ FoodAdditive("氯化鉀 (Potassium chloride)", "代鹽、風味增強", "低鈉食品、湯品、麥片、零食條", High),
      FoodAdditive("磷酸鉀 (Potassium phosphate)", "乳化劑、pH 控制", "抹醬、加工起司、加工肉類、冷凍魚類", High),
      FoodAdditive("檸檬酸鉀 (Potassium citrate)", "乳化劑、營養補充", "汽水、果汁、運動飲料、膠囊補充品", LikelyHigh),
      FoodAdditive("乳酸鉀 (Potassium lactate)", "風味增強、保存", "加工肉類、禽肉製品、即食餐", LikelyHigh) ]
  }

  /**
   * BIOAVAILABILITY_DATA: three potassium sources with their absorption rates, each a
   * percentage, listed from the most to the least absorbed.
   */
  function BioavailabilityData(): (r: seq<BioavailabilitySample>)
    ensures |r| == 3
    ensures forall i :: 0 <= i < |r| ==> 0 <= r[i].rate <= 100
    ensures forall i, j :: 0 <= i < j < |r| ==> r[i].rate > r[j].rate
  {
    [ BioavailabilitySample("加工食品添加劑", 90, "#ef4444", "幾乎完全吸收，對血鉀影響最劇烈"),
      BioavailabilitySample("動物性天然來源", 70, "#f97316", "吸收率中等，且缺乏纖維緩衝"),
      BioavailabilitySample("植物性天然來源", 50, "#22c55e", "吸收率最低，且纖維有助排鉀") ]
  }
}
