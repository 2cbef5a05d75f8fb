/**
 * The value types shared by the static tables and the page: the tier enumeration and
 * the additive and strategy records of types.ts, the severity order this model puts on
 * the tiers, and the shape of the untyped bioavailability literal.
 */
module Types {

  /** The three dietary strategy tiers, in increasing severity. */
  datatype StrategyLevel = Basic | Advanced | Intensive {

    /** This model's severity order on the tiers: Basic < Advanced < Intensive. */
    function Rank(): nat
    {
      match this
      case Basic => 0
      case Advanced => 1
      case Intensive => 2
    }
  }

  /** The more severe of two tiers. */
  function Worse(a: StrategyLevel, b: StrategyLevel): (w: StrategyLevel)
    ensures w == a || w == b
    ensures a.Rank() <= w.Rank() && b.Rank() <= w.Rank()
  {
    if a.Rank() <= b.Rank() then b else a
  }

  /** The `'High' | 'Likely High'` union of an additive's impact. */
  datatype Impact = High | LikelyHigh

  /** A potassium additive; `purpose` is the source's `function` field. */
  datatype FoodAdditive = FoodAdditive(name: string, purpose: string, products: string, impact: Impact)

  /** One strategy tier's text: a title of the form "label：subtitle" and four tips. */
  datatype DietaryStrategy = DietaryStrategy(title: string, description: string, rationale: string, tips: seq<string>)

  /**
   * The shape of one entry of the bioavailability literal, which the source leaves
   * without a declared type; `rate` is an absorption percentage.
   */
  datatype BioavailabilitySample = BioavailabilitySample(source: string, rate: int, color: string, desc: string)
}
