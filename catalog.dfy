/** The constant product table and the two constant strings of the assistant. */
module Catalog {
  import opened Types
  import Seqs

  const GeminiModel: string := "gemini-2.5-flash"

  /** The persona instruction given to the chat session when it is created. Its wording
      plays no part in the model; only its identity as a fixed string does. */
  const SystemInstruction: string :=
    "\n"
    + "You are \"Liwisi AI\", a sophisticated interior design assistant for the Liwisi brand.\n"
    + "We sell premium, modern furniture.\n"
    + "Your tone is elegant, helpful, and concise.\n"
    + "You should help customers find products from our catalog, give design advice (e.g., color matching, layout), and explain the benefits of our Black Friday sales.\n"
    + "Do not invent products that are not generally found in a modern furniture store, but you can speak generally about design concepts.\n"
    + "If asked about specific prices, refer to the context provided or suggest checking the product page, but try to be helpful with general ranges if known (assume premium pricing).\n"
    + "Always be polite and encourage the user to envision the furniture in their home.\n"

  const CloudSofa := Product("1", "The Cloud Sofa", 2400, Some(1899), "Living Room",
    "https://picsum.photos/id/1036/800/800",
    "Experience the sensation of floating with our plush, modular Cloud Sofa. Designed for ultimate relaxation.",
    ["Best Seller", "Black Friday Deal"])

  const EamesLounge := Product("2", "Eames-Style Lounge", 1200, Some(850), "Chairs",
    "https://picsum.photos/id/1060/800/800",
    "Mid-century modern aesthetic meets ergonomic excellence. Premium leather finish.",
    ["Classic", "Limited Stock"])

  const OakDiningTable := Product("3", "Nordic Oak Dining Table", 899, None, "Dining",
    "https://picsum.photos/id/1080/800/800",
    "Solid oak construction with a minimalist silhouette. Perfect for family gatherings.",
    ["Sustainable"])

  const FloorLamp := Product("4", "Industrial Floor Lamp", 250, Some(199), "Lighting",
    "https://picsum.photos/id/1035/800/800",
    "A statement piece that illuminates your space with a warm, ambient glow.",
    ["Decor"])

  const AccentChair := Product("5", "Velvet Accent Chair", 450, None, "Chairs",
    "https://picsum.photos/id/1062/800/800",
    "Add a pop of color and texture with this luxurious velvet armchair.",
    ["New Arrival"])

  const CoffeeTable := Product("6", "Minimalist Coffee Table", 350, Some(275), "Living Room",
    "https://picsum.photos/id/1078/800/800",
    "Sleek glass and metal design that maximizes visual space in smaller rooms.",
    ["Black Friday Deal"])

  const Products: seq<Product> :=
    [CloudSofa, EamesLounge, OakDiningTable, FloorLamp, AccentChair, CoffeeTable]

  /** A product record is sound when its base price is positive and a sale price, if any,
      is strictly below it. */
  predicate SoundPricing(p: Product)
  {
    p.price > 0 && (p.salePrice.Some? ==> p.salePrice.value < p.price)
  }

  /** The id of each product, in catalog order. */
  function IdColumn(ps: seq<Product>): (r: seq<string>)
    ensures |r| == |ps| && forall i :: 0 <= i < |ps| ==> r[i] == ps[i].id
  {
    seq(|ps|, i requires 0 <= i < |ps| => ps[i].id)
  }

  predicate DistinctIds(ps: seq<Product>)
  {
    Seqs.NoDuplicates(IdColumn(ps))
  }

  /** The six product ids are pairwise distinct. */
  lemma CatalogIdsDistinct()
    ensures |Products| == 6 && DistinctIds(Products)
  {
  }

  /** Every base price is positive and every sale price is strictly below its base price. */
  lemma CatalogPricingSound()
    ensures forall i :: 0 <= i < |Products| ==> SoundPricing(Products[i])
  {
  }
}
