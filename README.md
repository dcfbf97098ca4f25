# Speaker presentation: navigation and layout dispatch

A Dafny model of the `SpeakerPresentation` component in `app.js`. The component is a
slideshow with seven fixed slides about the premium speaker market. It has two parts worth
modelling. The first is its one piece of mutable state, the index of the slide on screen.
Two guarded handlers ("next" and "previous") move that index, and the component derives two
button-disabled flags and a "n / 7" position indicator from it. The second is `renderSlide`,
which picks a rendering branch from the slide's `layout` tag and, for charts, its `chartType`.

Modules:

- `Wrappers`: `Option`, plus `At`, which reads an array the JavaScript way (`undefined` past the end).
- `Deck`: the `Slide` datatype (one constructor per layout tag), the seven slides, the two chart
  datasets and the four-colour palette.
- `Navigation`: the two guarded steps and the disabled flags as pure functions of the position,
  and `Run`, the position after any sequence of button presses.
- `Dispatch`: `RenderSlide`, from a slide to an abstract `View` (title card, bullet list, pie
  with slices and legend, bar chart, interview), with `Option` standing for the `undefined`
  that `renderSlide` returns when no branch matches.
- `Numerals`: the decimal text of a non-negative integer, used by the indicator.
- `Presentation`: the class `SpeakerPresentation`, with the field `currentSlide`, the
  invariant `0 <= currentSlide < |Slides|`, and the methods `NextSlide` and `PrevSlide`.

Three behaviours of the code are kept as written:

- A `chartType` other than `"pie"` is not rejected. It draws the bar chart.
- A record with an unknown `layout` is not rejected when the deck is built. `renderSlide` just
  returns `undefined`, modelled as `None`. The `Other` constructor of `Slide` stands for such
  a record; its tag has the type `UnknownLayout`, which excludes the four known tags. The deck
  contains none.
- The pie slices cycle through the palette (`index % COLORS.length`), but the legend does not
  (`COLORS[index]`). Past the fourth entry the legend swatch would be `undefined` (`None`).

## Model

| member | source | states |
|---|---|---|
| Wrappers.At | app.js:147 | an index inside the array yields the element at that index; any other index yields `undefined` |
| Deck.DeckEnds | app.js:24-78 | the deck has seven slides; the first is the "Understanding Consumer Preferences" title card and the last is the "Thank You" title card |
| Deck.PaletteFitsMarketData | app.js:8-22 | the pie dataset and the palette both have four entries, and the four colours are pairwise different |
| Navigation.NextIndex | app.js:80-84 | "next" moves forward by exactly one when the position is before the last slide and otherwise leaves it unchanged; a position inside the deck stays inside |
| Navigation.PrevIndex | app.js:86-90 | "previous" moves back by exactly one when the position is past the first slide and otherwise leaves it unchanged; it never goes below 0 |
| Navigation.NoOpIffDisabled | app.js:211-229 | inside the deck, a press does nothing exactly when its button is disabled; the flags are `PrevDisabledAt` (index 0) and `NextDisabledAt` (the last index) |
| Navigation.RunStaysInRange | app.js:80-90 | every sequence of presses, from any position in the deck, keeps the position in the deck |
| Navigation.ForwardPresses | app.js:80-84 | `k` presses of "next" move to `min(pos + k, last)` |
| Navigation.BackwardPresses | app.js:86-90 | `k` presses of "previous" move to `max(pos - k, 0)` |
| Dispatch.MapIndexed | app.js:110-115 | `xs.map((x, index) => f)` has the length of `xs`, and element `i` is `f` applied to `i` and `xs[i]` |
| Dispatch.KeyedListPreservesOrder | app.js:110-115 | a list rendered by `KeyedList` shows exactly the given elements in the given order, keyed by position |
| Dispatch.RenderSlide | app.js:92-203 | the dispatcher yields `undefined` exactly when the record's layout tag is none of "title", "bullets", "chart", "interview"; otherwise the view's heading is the slide's title |
| Dispatch.TitleRendersText | app.js:93-103 | a title slide shows its title and subtitle |
| Dispatch.BulletsRenderInOrder | app.js:105-119 | a bullets slide shows exactly its bullets, in order, none dropped or duplicated, item `i` keyed `i` |
| Dispatch.ChartTypeFallsThroughToBar | app.js:121-173 | a chart slide draws the pie over the market dataset exactly when `chartType` is "pie"; any other type draws the bar chart over the price dataset |
| Dispatch.InterviewRendersInOrder | app.js:175-202 | an interview slide shows its role, its quote and exactly its questions in order |
| Dispatch.LegendAgreesWithCells | app.js:136-151 | for any dataset, of the slices built by `PieCells` and the legend built by `Legend`: slice colours always come from the palette; legend line `i` has slice `i`'s colour while `i` is within the palette and `undefined` after it; each legend line shows its category's name and value |
| Dispatch.MarketColoursDistinct | app.js:136-148 | on the deck's four categories every legend line has a colour equal to its slice's, and the four colours are distinct |
| Dispatch.DeckAlwaysRenders | app.js:208 | every slide of the deck has a recognised layout, so rendering it never yields `undefined` |
| Numerals.Decimal | app.js:220 | the text of a number is non-empty, all digits, without a leading zero, and a single digit exactly below 10 |
| Numerals.DecimalRoundTrip | app.js:220 | reading the digits of that text back gives the number |
| Presentation.SpeakerPresentation.constructor | app.js:6 | the component starts at index 0, showing the "Understanding Consumer Preferences" title card |
| Presentation.SpeakerPresentation.NextSlide | app.js:80-84 | keeps the index in the deck, applies the "next" step, and changes nothing exactly when the "next" button was disabled |
| Presentation.SpeakerPresentation.PrevSlide | app.js:86-90 | keeps the index in the deck, applies the "previous" step, and changes nothing exactly when the "previous" button was disabled |
| Deck.Layout | app.js:28 | the tag a record carries is one of the four known tags exactly when the record is not `Other` |
| Presentation.SpeakerPresentation.PrevDisabled | app.js:213 | under the invariant, the "previous" button is disabled exactly when pressing it would leave the index unchanged |
| Presentation.SpeakerPresentation.NextDisabled | app.js:225 | under the invariant, the "next" button is disabled exactly when pressing it would leave the index unchanged |
| Presentation.SpeakerPresentation.Current | app.js:208 | `slides[currentSlide]` is defined and is a deck slide with a recognised layout |
| Presentation.SpeakerPresentation.Shown | app.js:208 | what is drawn is never `undefined` and is headed by the current slide's title |
| Presentation.SpeakerPresentation.Indicator | app.js:219-221 | the indicator is a digit from 1 to 7 equal to `currentSlide + 1`, followed by " / 7" |
| Presentation.SixNextsReachTheEnd | app.js:73-84 | from the start, six presses of "next" reach the "Thank You" slide, a seventh leaves the index at 6, and the indicator reads "7 / 7" |

## Left out

- Markup and styling (class names, headings' sizes, the decorative icons): presentational only.
- The chart library components (`ResponsiveContainer`, `PieChart`, `Pie`, `Cell`, `BarChart`, `Bar`, axes, `Tooltip`) and their geometry (radii, padding angle): foreign code. The model records only the data, the slice colours, the legend and the bar fill that the component hands them.
- The interview's image placeholder (`/api/placeholder/300/300`): a network resource.
- React's hook semantics (`useState`, re-render scheduling, closure capture): the state update is a direct field assignment.
- `ReactDOM.render` and the DOM mount point: environment I/O.
- Validation of the deck when it is built: the component does not do it. The model instead proves that every slide of this deck has a recognised layout.
- Records missing the fields their layout needs cannot be expressed: each constructor carries its fields. In the code, `{layout: "bullets"}` without a `bullets` array throws a TypeError at `slide.bullets.map` (app.js:110), and an interview record without `content` throws at `slide.content.role` (app.js:184).
- Text formatting inside views: the quotation marks around the interview quote (app.js:188) and the "name: value%" text of legend lines (app.js:149). Views keep the raw fields.
- Numerals.Decimal: covers only the non-negative integers the indicator shows, not JavaScript's general number-to-text conversion.
