/**
 * The recommendation grid of
 * project/src/components/Dashboard/ProductRecommendations.tsx: which products a
 * user level sees, how many cards are drawn, and the labels on each card.
 */
module ProductRecommendations {
  import opened Types
  import opened Collections

  /** The filter callback: beginners see low-risk, easy-to-ship products; intermediates anything but high risk. */
  predicate KeepForLevel(userLevel: string, p: Product)
  {
    if userLevel == "beginner" then p.riskLevel == Low && p.shippingDifficulty == Easy
    else if userLevel == "intermediate" then p.riskLevel != High
    else true
  }

  function KeepFor(userLevel: string): Product -> bool
  {
    p => KeepForLevel(userLevel, p)
  }

  /** `filteredProducts`. */
  function FilteredProducts(products: seq<Product>, userLevel: string): (r: seq<Product>)
    ensures Subseq(r, products)
    ensures |r| == Count(products, KeepFor(userLevel))
    ensures userLevel == "beginner" ==>
      forall p :: p in products ==> (p in r <==> p.riskLevel == Low && p.shippingDifficulty == Easy)
    ensures userLevel == "intermediate" ==>
      forall p :: p in products ==> (p in r <==> p.riskLevel != High)
    ensures userLevel != "beginner" && userLevel != "intermediate" ==> r == products
  {
    if userLevel != "beginner" && userLevel != "intermediate" then FilterAll(products, KeepFor(userLevel)); Filter(products, KeepFor(userLevel))
    else Filter(products, KeepFor(userLevel))
  }

  /** What a beginner sees is a subsequence of what an intermediate user sees, which is a subsequence of everything. */
  lemma LevelsNested(products: seq<Product>, otherLevel: string)
    requires otherLevel != "beginner" && otherLevel != "intermediate"
    ensures Subseq(FilteredProducts(products, "beginner"), FilteredProducts(products, "intermediate"))
    ensures Subseq(FilteredProducts(products, "intermediate"), FilteredProducts(products, otherLevel))
  {
    FilterMonotone(products, KeepFor("beginner"), KeepFor("intermediate"));
  }

  /** `filteredProducts.slice(0, 6)`: the cards drawn. */
  function VisibleCards(filtered: seq<Product>): (cards: seq<Product>)
    ensures |cards| == if |filtered| <= 6 then |filtered| else 6
    ensures cards == filtered[..|cards|]
    ensures |filtered| <= 6 ==> cards == filtered
  {
    if |filtered| <= 6 then filtered else filtered[..6]
  }

  /** The heading badge: 初心者向け, 中級者向け, and 上級者向け for any other level. */
  function LevelHeading(userLevel: string): (caption: string)
    ensures caption == "初心者向け" <==> userLevel == "beginner"
    ensures caption == "中級者向け" <==> userLevel == "intermediate"
    ensures caption == "上級者向け" <==> userLevel != "beginner" && userLevel != "intermediate"
  {
    if userLevel == "beginner" then "初心者向け"
    else if userLevel == "intermediate" then "中級者向け"
    else "上級者向け"
  }

  /** The risk label: 低 for low, 中 for medium, 高 otherwise. */
  function RiskLabel(risk: RiskLevel): (caption: string)
    ensures caption == "低" <==> risk == Low
    ensures caption == "中" <==> risk == Medium
    ensures caption == "高" <==> risk == High
  {
    match risk
    case Low => "低"
    case Medium => "中"
    case High => "高"
  }

  /** The shipping label: 簡単 for easy, 普通 for medium, 困難 otherwise. */
  function ShippingLabel(difficulty: ShippingDifficulty): (caption: string)
    ensures caption == "簡単" <==> difficulty == Easy
    ensures caption == "普通" <==> difficulty == Moderate
    ensures caption == "困難" <==> difficulty == Hard
  {
    match difficulty
    case Easy => "簡単"
    case Moderate => "普通"
    case Hard => "困難"
  }
}
