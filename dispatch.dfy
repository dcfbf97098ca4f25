/**
 * The layout dispatcher `renderSlide`: a pure map from a slide record to an
 * abstract description of what is drawn. Markup, styling, icons and the
 * chart library are not described; what each branch shows is.
 */
module Dispatch {
  import opened Wrappers
  import opened Deck

  /** An element of a rendered list together with the React key it is given (its index). */
  datatype Keyed<T> = Keyed(key: nat, item: T)

  /** One slice of the pie and the colour it is filled with. */
  datatype Cell = Cell(key: nat, fill: string)

  /** One legend line under the pie: a colour swatch and the text "name: value%". */
  datatype LegendEntry = LegendEntry(key: nat, swatch: Option<string>, name: string, value: int)

  /** What a slide renders to, one case per branch of the dispatcher. */
  datatype View =
    | TitleView(heading: string, subtitle: string)
    | BulletList(heading: string, items: seq<Keyed<string>>)
    | PieView(heading: string, data: seq<Segment>, cells: seq<Cell>, legend: seq<LegendEntry>)
    | BarView(heading: string, buckets: seq<PriceBucket>, fill: string)
    | InterviewView(heading: string, role: string, quote: string, questions: seq<Keyed<string>>)

  /** The single fill colour of the bar chart. */
  const BarFill: string := "#4C51BF"

  /** JavaScript's `xs.map((x, index) => f(index, x))`. */
  function MapIndexed<A, B>(xs: seq<A>, f: (nat, A) -> B): (r: seq<B>)
    ensures |r| == |xs|
    ensures forall i :: 0 <= i < |xs| ==> r[i] == f(i, xs[i])
  {
    if xs == [] then []
    else MapIndexed(xs[..|xs| - 1], f) + [f(|xs| - 1, xs[|xs| - 1])]
  }

  /** A list rendered element by element, each keyed by its index. */
  function KeyedList<T>(xs: seq<T>): seq<Keyed<T>>
  {
    MapIndexed(xs, (i: nat, x: T) => Keyed(i, x))
  }

  /** The elements shown by a keyed list, in display order. */
  function Items<T>(ks: seq<Keyed<T>>): seq<T>
  {
    seq(|ks|, i requires 0 <= i < |ks| => ks[i].item)
  }

  /**
   * A keyed list shows exactly the given elements in the given order (none
   * dropped, duplicated or moved), and the keys are the positions.
   */
  lemma KeyedListPreservesOrder<T>(xs: seq<T>)
    ensures Items(KeyedList(xs)) == xs
    ensures |KeyedList(xs)| == |xs|
    ensures forall i :: 0 <= i < |xs| ==> KeyedList(xs)[i].key == i
  {
  }

  /** The pie slices: slice `index` takes colour `COLORS[index % COLORS.length]`. */
  function PieCells(data: seq<Segment>): seq<Cell>
  {
    MapIndexed(data, (i: nat, entry: Segment) => Cell(i, Colors[i % |Colors|]))
  }

  /** The legend: line `index` takes colour `COLORS[index]`, with no modulo. */
  function Legend(data: seq<Segment>): seq<LegendEntry>
  {
    MapIndexed(data, (i: nat, item: Segment) => LegendEntry(i, At(Colors, i), item.name, item.value))
  }

  /** `renderSlide`; `None` is the `undefined` returned for an unknown layout. */
  function RenderSlide(s: Slide): (r: Option<View>)
    ensures r.None? <==> !KnownLayout(Layout(s))
    ensures r.Some? ==> r.value.heading == s.title
  {
    match s
    case Title(t, sub) => Some(TitleView(t, sub))
    case Bullets(t, bullets) => Some(BulletList(t, KeyedList(bullets)))
    case Chart(t, chartType) =>
      if chartType == "pie" then Some(PieView(t, MarketData, PieCells(MarketData), Legend(MarketData)))
      else Some(BarView(t, PriceData, BarFill))
    case Interview(t, content) =>
      Some(InterviewView(t, content.role, content.quote, KeyedList(content.questions)))
    case Other(_, _) => None
  }

  /** A bullets slide renders exactly its bullets, in order, keyed by position. */
  lemma BulletsRenderInOrder(s: Slide)
    requires s.Bullets?
    ensures RenderSlide(s).Some? && RenderSlide(s).value.BulletList?
    ensures Items(RenderSlide(s).value.items) == s.bullets
    ensures forall i :: 0 <= i < |s.bullets| ==> RenderSlide(s).value.items[i] == Keyed(i, s.bullets[i])
  {
    KeyedListPreservesOrder(s.bullets);
  }

  /** An interview slide renders its role, its quote and exactly its questions, in order. */
  lemma InterviewRendersInOrder(s: Slide)
    requires s.Interview?
    ensures RenderSlide(s).Some? && RenderSlide(s).value.InterviewView?
    ensures RenderSlide(s).value.role == s.content.role
    ensures RenderSlide(s).value.quote == s.content.quote
    ensures Items(RenderSlide(s).value.questions) == s.content.questions
  {
    KeyedListPreservesOrder(s.content.questions);
  }

  /** A title slide renders its title and subtitle. */
  lemma TitleRendersText(s: Slide)
    requires s.Title?
    ensures RenderSlide(s) == Some(TitleView(s.title, s.subtitle))
  {
  }

  /**
   * A chart slide draws the pie exactly when its `chartType` is "pie"; every
   * other chart type falls through to the bar chart of the price dataset.
   */
  lemma ChartTypeFallsThroughToBar(s: Slide)
    requires s.Chart?
    ensures RenderSlide(s).Some?
    ensures RenderSlide(s).value.PieView? <==> s.chartType == "pie"
    ensures s.chartType != "pie" ==> RenderSlide(s).value == BarView(s.title, PriceData, BarFill)
    ensures s.chartType == "pie" ==> RenderSlide(s).value.data == MarketData
  {
  }

  /**
   * For any dataset, every slice colour is a palette entry; legend line `i`
   * shows the same colour as slice `i` while `i` is within the palette, and
   * no colour (`undefined`) past it.
   */
  lemma LegendAgreesWithCells(data: seq<Segment>)
    ensures |PieCells(data)| == |Legend(data)| == |data|
    ensures forall i :: 0 <= i < |data| ==> PieCells(data)[i].fill in Colors
    ensures forall i :: 0 <= i < |data| ==>
      Legend(data)[i].swatch == (if i < |Colors| then Some(PieCells(data)[i].fill) else None)
    ensures forall i :: 0 <= i < |data| ==>
      Legend(data)[i].name == data[i].name && Legend(data)[i].value == data[i].value
  {
    forall i | 0 <= i < |data|
      ensures Legend(data)[i].swatch == (if i < |Colors| then Some(PieCells(data)[i].fill) else None)
    {
      assert Legend(data)[i].swatch == At(Colors, i);
      assert PieCells(data)[i].fill == Colors[i % |Colors|];
      if i < |Colors| {
        assert i % |Colors| == i;
      }
    }
  }

  /**
   * On the deck's own dataset every legend line has a colour, it matches its
   * slice, and the four categories get four different colours.
   */
  lemma MarketColoursDistinct()
    ensures |PieCells(MarketData)| == |Legend(MarketData)| == 4
    ensures forall i :: 0 <= i < 4 ==> Legend(MarketData)[i].swatch == Some(PieCells(MarketData)[i].fill)
    ensures forall i, j :: 0 <= i < j < 4 ==> PieCells(MarketData)[i].fill != PieCells(MarketData)[j].fill
  {
    LegendAgreesWithCells(MarketData);
    forall i | 0 <= i < 4
      ensures PieCells(MarketData)[i].fill == Colors[i]
    {
      assert i % |Colors| == i;
    }
  }

  /** Every slide of the deck has a recognised layout, so the dispatcher never yields `undefined` on it. */
  lemma DeckAlwaysRenders()
    ensures forall i :: 0 <= i < |Slides| ==> RenderSlide(Slides[i]).Some?
  {
  }
}
