# Cashback category tracker: the card/category store and its statistics

The tracker is a single page (`src/pages/Index.tsx`). It keeps two ordered
lists in memory: bank cards (`id`, `name`, `color`, `bank`) and cashback
categories (`id`, `name`, `cashback`, `cardId`, `icon`). Each category is
attached to one card through `cardId`. Two form drafts (`newCard`,
`newCategory`) hold the fields of the next record to create. Four handlers
change this state:

- `addCard` appends the drafted card when its name and bank are non-empty, then clears the draft.
- `addCategory` appends the drafted category when its name and chosen card are non-empty, then clears the draft.
- `deleteCard` drops a card and, in the same step, every category attached to it.
- `deleteCategory` drops one category.

On every render the page derives several views from the two lists:

- the pie-chart data (one slice per category);
- the per-card statistics behind the bar chart (count and mean cashback per card);
- the same count and mean, computed a second time in the panel under each card;
- the three summary tiles (card count, category count, mean cashback over all categories).

The project models this in four modules:

- `Sequences` (sequences.dfy): JavaScript's `filter` as `Filter`. Its contract says which elements survive and that they keep their order (`IsSubsequence`).
- `Entities` (entities.dfy): the records, the drafts and their blank values, the seeded data, and the filter tests. It also defines the referential link `Linked` (every category names a live card) and `DistinctIds`.
- `Stats` (stats.dfy): the derived views. Sums follow `reduce` from left to right. Each count and sum is checked against reference definitions that count directly (`CountOn`, `SumOn`).
- `Store` (store.dfy): the class `CashbackStore` with the four fields and the four handlers as methods. It also holds the lemmas that say which handlers keep `Linked` and `DistinctIds`.

Ids come from `Date.now().toString()` in the page. Here they are a
parameter of `AddCard` and `AddCategory`. The page never checks that an id
is new, and neither does the model. `AddCard` only promises distinct card ids
when the caller supplies an id not yet in use.

`cashback` is an exact `real`. Each average is the exact quotient
`count > 0 ? sum / count : 0` (`Stats.Mean`).

`addCategory` keeps every category linked to a live card only when the chosen
card still exists. The category form offers only live cards
(src/pages/Index.tsx:203-215). But `deleteCard` does not clear the card already
chosen in the form. So "choose card 1, delete card 1, create the category"
leaves a category whose card is gone. `Store.StaleCardChoice` proves this
sequence of steps. The model keeps the page's behaviour as written.

## Model

| member | source | states |
|---|---|---|
| `Sequences.Filter` | src/pages/Index.tsx:65-70 | `filter` keeps exactly the elements that pass the test (both directions of membership), in their original relative order, never lengthens the list, and returns the list unchanged when every element passes |
| `Sequences.FilterMultiplicity` | src/pages/Index.tsx:65-70 | every occurrence of a kept value survives, and no occurrence of a dropped value does |
| `Sequences.FilterSplitsLength` | src/pages/Index.tsx:66 | a list filtered by a test and by its negation gives two parts whose lengths add up to the original length |
| `Sequences.FilterIdempotent` | src/pages/Index.tsx:69-71 | filtering twice with the same test equals filtering once |
| `Entities.SeedIsLinked` | src/pages/Index.tsx:31-44 | the seeded cards have distinct ids and every seeded category names a seeded card |
| `Stats.TotalSnoc` | src/pages/Index.tsx:141 | the left-to-right cashback sum grows by exactly the cashback of an appended category |
| `Stats.MeanScales` | src/pages/Index.tsx:80-82 | a guarded mean over a positive count, multiplied back by the count, gives the sum |
| `Stats.MeanWithin` | src/pages/Index.tsx:80-82 | a guarded mean over a positive count lies within [lo, hi] when the sum lies between lo and hi each added up count times |
| `Stats.TotalWithin` | src/pages/Index.tsx:141 | when every cashback lies in [lo, hi], the sum lies between lo and hi each added up once per category |
| `Stats.AverageWithin` | src/pages/Index.tsx:140-142 | the average tile lies between the smallest and the largest cashback of the categories |
| `Stats.CardCategoriesCounted` | src/pages/Index.tsx:79 | the categories filtered for a card number exactly `CountOn` and their cashbacks sum to exactly `SumOn` |
| `Stats.CascadeRemovesCount` | src/pages/Index.tsx:66 | the cascade in `deleteCard` removes exactly as many categories as the card carries |
| `Stats.ChartData` | src/pages/Index.tsx:73-76 | one pie slice per category; slice `i` has category `i`'s name and its cashback as value |
| `Stats.ChartCoversTotal` | src/pages/Index.tsx:73-76 | the pie slices add up to the cashback total that the average tile divides |
| `Stats.StatFor` | src/pages/Index.tsx:78-88 | a card's entry carries the card's name, the number of categories attached to it, and the mean of their cashbacks (0 when there are none) |
| `Stats.CardStats` | src/pages/Index.tsx:78-88 | one entry per card, in card order; entry `i` has card `i`'s name, the count of categories attached to card `i`, and their mean cashback (0 when the count is 0) |
| `Stats.CardPanel` | src/pages/Index.tsx:356-382 | the panel under a card shows the count of categories attached to it and their mean cashback (0 when there are none) |
| `Stats.PanelAgreesWithStats` | src/pages/Index.tsx:78-88 | the panel under card `i` and entry `i` of the statistics chart report the same count and the same average |
| `Stats.SummaryOf` | src/pages/Index.tsx:117-142 | the tiles show the number of cards and of categories; the average is 0 with no categories, else the average times the category count is the cashback total |
| `Stats.BarsAddUp` | src/pages/Index.tsx:291-297 | the bar heights of the statistics chart add up to the per-card counts summed over the cards |
| `Stats.OverSnoc` | src/pages/Index.tsx:79 | with distinct card ids, a new category adds one to the count and its cashback to the sum of the single card it names, and nothing when it names no card |
| `Stats.NothingOver` | src/pages/Index.tsx:79 | with no categories every card counts 0 and sums to 0 |
| `Stats.OverCoversAll` | src/pages/Index.tsx:78-88 | with distinct card ids and no orphan category, the per-card counts add up to the category count and the per-card sums to the cashback total |
| `Stats.StatsAddUpToSummary` | src/pages/Index.tsx:78-142 | with distinct card ids and no orphan category, the bars add up to the category tile, and the per-card sums add up to the average tile times the category count |
| `Stats.SeedTotals` | src/pages/Index.tsx:37-44 | the seeded categories give cards 1, 2 and 3 two categories each, with sums 8, 17 and 6; the overall total is 31 |
| `Stats.SeedStats` | src/pages/Index.tsx:78-88 | on the seeded categories, three cards with the seeded ids 1, 2 and 3 get 2 categories each, with averages 4, 8.5 and 3 |
| `Stats.SeedSummary` | src/pages/Index.tsx:117-142 | on the seeded data the tiles show 3 cards, 6 categories and the average 31/6 |
| `Store.AddCardKeepsLinks` | src/pages/Index.tsx:50-55 | appending a card never leaves a category without its card |
| `Store.AddCategoryLinks` | src/pages/Index.tsx:57-62 | appending a category to a linked state keeps it linked if and only if the new category names a live card |
| `Store.DeleteCardKeepsLinks` | src/pages/Index.tsx:64-67 | removing a card together with its categories never leaves a category without its card |
| `Store.DeleteCategoryKeepsLinks` | src/pages/Index.tsx:69-71 | removing categories never leaves a category without its card |
| `Store.FreshIdKeepsDistinct` | src/pages/Index.tsx:52 | appending a card keeps card ids distinct if and only if its id is not yet in use |
| `Store.DeleteCardKeepsDistinct` | src/pages/Index.tsx:65 | removing cards keeps the remaining card ids distinct |
| `Store.CashbackStore.constructor` | src/pages/Index.tsx:31-47 | the page starts with the three seeded cards and six seeded categories and with blank drafts; this state is linked and its card ids are distinct |
| `Store.CashbackStore.AddCard` | src/pages/Index.tsx:50-55 | with a non-empty name and bank: appends exactly one card (draft fields plus the given id) after the unchanged earlier cards and resets the draft to empty name and bank with colour `#8B5CF6`; otherwise cards and draft are unchanged; categories and the category draft never change; keeps the link, and distinct ids for a new id |
| `Store.CashbackStore.AddCategory` | src/pages/Index.tsx:57-62 | with a non-empty name and card: appends exactly one category (draft fields plus the given id) and resets the draft to cashback 0, no card, icon `Star`; otherwise categories and draft are unchanged; cards and the card draft never change; keeps the link when the chosen card is live |
| `Store.CashbackStore.DeleteCard` | src/pages/Index.tsx:64-67 | keeps exactly the cards with another id and exactly the categories attached elsewhere, in order; afterwards no card has the id and no category names it; an id nobody uses changes nothing; drafts unchanged; keeps the link and distinct ids |
| `Store.CashbackStore.DeleteCategory` | src/pages/Index.tsx:69-71 | keeps exactly the categories with another id, in order; deleting the same id again changes nothing; cards and drafts unchanged; keeps the link |
| `Store.StaleCardChoice` | src/pages/Index.tsx:57-67 | choosing card 1 in the category form, deleting card 1 and then creating the category leaves a category whose card no longer exists |

## Left out

- Rendering: all JSX, the tabs, dialogs, selects, badges and icon lookup, and the pie and bar chart components. The model gives only the data they are fed.
- Pie-slice colours (`COLORS[index % COLORS.length]`): presentation only.
- The upload and settings panels: static markup whose buttons have no handlers.
- Draft editing: the `onChange` handlers that edit one draft field are UI glue. `Store.StaleCardChoice` assigns the category draft directly where a user would pick a card.
- Id generation from the clock: ids are parameters, and their freshness is an explicit assumption, never a promise of the page.
- Distinct category ids: only card ids are tracked by `DistinctIds`, because nothing in the page looks a category up by id except for deletion.
- Floating point: `cashback` is an exact `real`. So `parseFloat` yielding NaN and rounding in `+` and `/` are not modelled.
- `toFixed(1)`: averages are exact quotients. The decimal rounding and string formatting of the display are not modelled.
- React state timing: each handler is one atomic step over the current state. `setState` batching is not modelled.
- The backend image-analysis handler (`backend/analyze-cashback/index.py`) is not part of this model: it is an HTTP handler around a network call to an external API.
