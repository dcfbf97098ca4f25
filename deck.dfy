/**
 * The fixed content of the speaker presentation: the seven slides, the two
 * chart datasets and the colour palette. None of it changes while the
 * component is shown.
 */
module Deck {

  /** One category of the consumer-preference dataset, drawn as the pie chart. */
  datatype Segment = Segment(name: string, value: int)

  /** One bucket of the price-sensitivity dataset, drawn as the bar chart. */
  datatype PriceBucket = PriceBucket(price: string, users: int)

  /** The `content` record of an interview slide. */
  datatype InterviewContent = InterviewContent(role: string, quote: string, questions: seq<string>)

  /** The four `layout` tags the dispatcher has a branch for. */
  predicate KnownLayout(tag: string)
  {
    tag == "title" || tag == "bullets" || tag == "chart" || tag == "interview"
  }

  /** A `layout` tag the dispatcher has no branch for. */
  type UnknownLayout = tag: string | !KnownLayout(tag) witness "unknown"

  /**
   * A slide record, one constructor per `layout` tag. `Other` stands for a
   * record whose `layout` is none of the four tags the dispatcher knows;
   * the deck holds none, but the dispatcher has a branch for it.
   */
  datatype Slide =
    | Title(title: string, subtitle: string)
    | Bullets(title: string, bullets: seq<string>)
    | Chart(title: string, chartType: string)
    | Interview(title: string, content: InterviewContent)
    | Other(title: string, layout: UnknownLayout)

  /** The `layout` tag the record carries. */
  function Layout(s: Slide): (tag: string)
    ensures KnownLayout(tag) <==> !s.Other?
  {
    match s
    case Title(_, _) => "title"
    case Bullets(_, _) => "bullets"
    case Chart(_, _) => "chart"
    case Interview(_, _) => "interview"
    case Other(_, tag) => tag
  }

  const MarketData: seq<Segment> := [
    Segment("Sound Quality", 85),
    Segment("Battery Life", 75),
    Segment("Build Quality", 90),
    Segment("Price Point", 70)
  ]

  const PriceData: seq<PriceBucket> := [
    PriceBucket("$50-75", 25),
    PriceBucket("$75-100", 45),
    PriceBucket("$100-150", 20),
    PriceBucket("$150+", 10)
  ]

  const Colors: seq<string> := ["#4C51BF", "#48BB78", "#F6AD55", "#F56565"]

  const Slides: seq<Slide> := [
    Title("Understanding Consumer Preferences",
          "Premium Bluetooth & Wired Speakers Market Analysis"),
    Bullets("Market Overview", [
      "Global market size: $28.6B in 2024",
      "Premium segment growth: 12.4% YoY",
      "Bluetooth dominance: 72% market share",
      "Key drivers: Sound quality and portability"
    ]),
    Chart("Consumer Preferences", "pie"),
    Chart("Price Sensitivity Analysis", "bar"),
    Interview("Interview with Gaurav Siddharth", InterviewContent(
      "Audio Technology Expert",
      "The $100 price point offers the perfect balance of features and quality",
      [
        "What features attracted you to this speaker?",
        "How does it compare to other speakers in this range?",
        "Would you recommend it for audiophiles?"
      ])),
    Bullets("Key Recommendations", [
      "Focus on premium features in $75-100 range",
      "Emphasize sound quality and build durability",
      "Invest in Bluetooth 5.0+ technology",
      "Target audiophile community with specialized models"
    ]),
    Title("Thank You", "Questions & Discussion")
  ]

  /** The deck opens on the title card and closes on the "Thank You" card, seven slides in all. */
  lemma DeckEnds()
    ensures |Slides| == 7
    ensures Slides[0] == Title("Understanding Consumer Preferences",
                               "Premium Bluetooth & Wired Speakers Market Analysis")
    ensures Slides[|Slides| - 1] == Title("Thank You", "Questions & Discussion")
  {
  }

  /** The pie dataset has exactly as many categories as the palette has colours, and the colours differ. */
  lemma PaletteFitsMarketData()
    ensures |MarketData| == |Colors| == 4
    ensures forall i, j :: 0 <= i < j < |Colors| ==> Colors[i] != Colors[j]
  {
  }
}
