/** The views the page derives from the store on every render: the pie-chart
    data, the per-card statistics behind the bar chart, the per-card panel on
    the cards tab, and the three summary tiles. Sums follow `reduce` from
    left to right; averages are exact quotients (the one-decimal display
    rounding is not modelled). */
module Stats {
  import opened Sequences
  import opened Entities

  /** One slice of the cashback pie chart. */
  datatype ChartEntry = ChartEntry(name: string, value: real)

  /** One bar of the per-card statistics chart. */
  datatype CardStat = CardStat(name: string, categories: nat, avgCashback: real)

  /** The count and average shown under a card on the cards tab. */
  datatype Panel = Panel(count: nat, avgCashback: real)

  /** The three summary tiles: cards, categories, average cashback. */
  datatype Summary = Summary(cardCount: nat, categoryCount: nat, avgCashback: real)

  // ---------------------------------------------------------------------
  // Sums and averages

  /** `categories.reduce((sum, cat) => sum + cat.cashback, 0)`. */
  function Total(categories: seq<Category>): real {
    if categories == [] then 0.0
    else Total(categories[..|categories| - 1]) + categories[|categories| - 1].cashback
  }

  /** Appending one category adds its cashback to the total. */
  lemma TotalSnoc(categories: seq<Category>, c: Category)
    ensures Total(categories + [c]) == Total(categories) + c.cashback
  {
    assert (categories + [c])[..|categories|] == categories;
  }

  /** `count > 0 ? sum / count : 0`: the guarded mean the page computes. */
  function Mean(sum: real, count: nat): real {
    if count > 0 then sum / (count as real) else 0.0
  }

  /** A mean over at least one value, multiplied back by the count, is the sum. */
  lemma MeanScales(sum: real, count: nat)
    requires count > 0
    ensures Mean(sum, count) * (count as real) == sum
  {
  }

  /** `x` added up `count` times. */
  function Repeated(count: nat, x: real): real {
    if count == 0 then 0.0 else Repeated(count - 1, x) + x
  }

  /** Adding `x` up `count` times is multiplying it by `count`. */
  lemma {:induction false} RepeatedIsProduct(count: nat, x: real)
    ensures Repeated(count, x) == (count as real) * x
  {
    if count > 0 {
      RepeatedIsProduct(count - 1, x);
      var n := (count - 1) as real;
      assert (n + 1.0) * x == n * x + x;
    }
  }

  /** A mean of values bounded by [lo, hi] lies within [lo, hi]. */
  lemma MeanWithin(sum: real, count: nat, lo: real, hi: real)
    requires count > 0
    requires Repeated(count, lo) <= sum <= Repeated(count, hi)
    ensures lo <= Mean(sum, count) <= hi
  {
    RepeatedIsProduct(count, lo);
    RepeatedIsProduct(count, hi);
    MeanScales(sum, count);
    var m, k := Mean(sum, count), count as real;
    assert (m - hi) * k == m * k - hi * k;
    assert (lo - m) * k == lo * k - m * k;
    NonPositiveFactor(m - hi, k);
    NonPositiveFactor(lo - m, k);
  }

  /** A product with a positive factor is non-positive only if the other factor is. */
  lemma NonPositiveFactor(a: real, k: real)
    requires k > 0.0 && a * k <= 0.0
    ensures a <= 0.0
  {
  }

  /** If every cashback lies in [lo, hi], the total lies between lo and hi
      added up once per category. */
  lemma {:induction false} TotalWithin(categories: seq<Category>, lo: real, hi: real)
    requires forall c :: c in categories ==> lo <= c.cashback <= hi
    ensures Repeated(|categories|, lo) <= Total(categories) <= Repeated(|categories|, hi)
    decreases |categories|
  {
    if categories != [] {
      var init := categories[..|categories| - 1];
      assert forall c :: c in init ==> c in categories;
      TotalWithin(init, lo, hi);
      assert categories[|categories| - 1] in categories;
    }
  }

  /** The average tile lies between the smallest and the largest cashback. */
  lemma AverageWithin(categories: seq<Category>, lo: real, hi: real)
    requires |categories| > 0
    requires forall c :: c in categories ==> lo <= c.cashback <= hi
    ensures lo <= Mean(Total(categories), |categories|) <= hi
  {
    TotalWithin(categories, lo, hi);
    MeanWithin(Total(categories), |categories|, lo, hi);
  }

  // ---------------------------------------------------------------------
  // Reference definitions: what belongs to one card, counted directly

  /** The number of categories attached to the card `cardId`. */
  function CountOn(categories: seq<Category>, cardId: string): nat {
    if categories == [] then 0
    else
      CountOn(categories[..|categories| - 1], cardId)
      + (if categories[|categories| - 1].cardId == cardId then 1 else 0)
  }

  /** The sum of the cashbacks of the categories attached to the card `cardId`. */
  function SumOn(categories: seq<Category>, cardId: string): real {
    if categories == [] then 0.0
    else
      SumOn(categories[..|categories| - 1], cardId)
      + (if categories[|categories| - 1].cardId == cardId then categories[|categories| - 1].cashback else 0.0)
  }

  /** `categories.filter(cat => cat.cardId === cardId)` has exactly CountOn
      elements, whose cashbacks add up to SumOn. */
  lemma {:induction false} CardCategoriesCounted(categories: seq<Category>, cardId: string)
    ensures |Filter(categories, OnCard(cardId))| == CountOn(categories, cardId)
    ensures Total(Filter(categories, OnCard(cardId))) == SumOn(categories, cardId)
    decreases |categories|
  {
    if categories != [] {
      var init, last := categories[..|categories| - 1], categories[|categories| - 1];
      CardCategoriesCounted(init, cardId);
      if last.cardId == cardId {
        TotalSnoc(Filter(init, OnCard(cardId)), last);
      }
    }
  }

  /** Deleting a card removes exactly as many categories as the card carries. */
  lemma CascadeRemovesCount(categories: seq<Category>, cardId: string)
    ensures |Filter(categories, OffCard(cardId))| == |categories| - CountOn(categories, cardId)
  {
    FilterSplitsLength(categories, OffCard(cardId), OnCard(cardId));
    CardCategoriesCounted(categories, cardId);
  }

  // ---------------------------------------------------------------------
  // Derived views

  /** `chartData`: one pie slice per category, in category order. */
  function ChartData(categories: seq<Category>): (r: seq<ChartEntry>)
    ensures |r| == |categories|
    ensures forall i :: 0 <= i < |r| ==>
      r[i].name == categories[i].name && r[i].value == categories[i].cashback
  {
    if categories == [] then []
    else
      var last := categories[|categories| - 1];
      ChartData(categories[..|categories| - 1]) + [ChartEntry(last.name, last.cashback)]
  }

  /** The sum of the pie-chart values. */
  function ChartTotal(entries: seq<ChartEntry>): real {
    if entries == [] then 0.0 else ChartTotal(entries[..|entries| - 1]) + entries[|entries| - 1].value
  }

  /** The pie chart shares out exactly the cashback total the summary averages. */
  lemma {:induction false} ChartCoversTotal(categories: seq<Category>)
    ensures ChartTotal(ChartData(categories)) == Total(categories)
    decreases |categories|
  {
    if categories != [] {
      var init := categories[..|categories| - 1];
      var r := ChartData(categories);
      assert r[..|r| - 1] == ChartData(init);
      ChartCoversTotal(init);
    }
  }

  /** The `cards.map` callback of `cardStats`: a card's name, how many
      categories are attached to it and the mean of their cashbacks. */
  function StatFor(card: BankCard, categories: seq<Category>): (r: CardStat)
    ensures r.name == card.name
    ensures r.categories == CountOn(categories, card.id)
    ensures r.avgCashback == Mean(SumOn(categories, card.id), CountOn(categories, card.id))
  {
    var cardCategories := Filter(categories, OnCard(card.id));
    CardCategoriesCounted(categories, card.id);
    CardStat(card.name, |cardCategories|, Mean(Total(cardCategories), |cardCategories|))
  }

  /** `cardStats`: one entry per card, in card order. */
  function CardStats(cards: seq<BankCard>, categories: seq<Category>): (r: seq<CardStat>)
    ensures |r| == |cards|
    ensures forall i :: 0 <= i < |r| ==>
      && r[i].name == cards[i].name
      && r[i].categories == CountOn(categories, cards[i].id)
      && r[i].avgCashback == Mean(SumOn(categories, cards[i].id), CountOn(categories, cards[i].id))
  {
    if cards == [] then []
    else CardStats(cards[..|cards| - 1], categories) + [StatFor(cards[|cards| - 1], categories)]
  }

  /** The panel under one card on the cards tab, computed there on its own. */
  function CardPanel(card: BankCard, categories: seq<Category>): (r: Panel)
    ensures r.count == CountOn(categories, card.id)
    ensures r.avgCashback == Mean(SumOn(categories, card.id), CountOn(categories, card.id))
  {
    var cardCategories := Filter(categories, OnCard(card.id));
    CardCategoriesCounted(categories, card.id);
    Panel(|cardCategories|, Mean(Total(cardCategories), |cardCategories|))
  }

  /** The cards tab and the statistics chart report the same count and average. */
  lemma PanelAgreesWithStats(cards: seq<BankCard>, categories: seq<Category>, i: nat)
    requires i < |cards|
    ensures CardPanel(cards[i], categories).count == CardStats(cards, categories)[i].categories
    ensures CardPanel(cards[i], categories).avgCashback == CardStats(cards, categories)[i].avgCashback
  {
  }

  /** The summary tiles: card count, category count, average over all categories. */
  function SummaryOf(cards: seq<BankCard>, categories: seq<Category>): (r: Summary)
    ensures r.cardCount == |cards| && r.categoryCount == |categories|
    ensures |categories| == 0 ==> r.avgCashback == 0.0
    ensures |categories| > 0 ==> r.avgCashback * (|categories| as real) == Total(categories)
  {
    if |categories| > 0 then MeanScales(Total(categories), |categories|); Summary(|cards|, |categories|, Mean(Total(categories), |categories|))
    else Summary(|cards|, 0, 0.0)
  }

  // ---------------------------------------------------------------------
  // The statistics chart adds up to the summary tiles

  /** The category counts of the bars, added up. */
  function SumCounts(stats: seq<CardStat>): nat {
    if stats == [] then 0 else SumCounts(stats[..|stats| - 1]) + stats[|stats| - 1].categories
  }

  /** CountOn added up over the cards. */
  function CountsOver(cards: seq<BankCard>, categories: seq<Category>): nat {
    if cards == [] then 0
    else CountsOver(cards[..|cards| - 1], categories) + CountOn(categories, cards[|cards| - 1].id)
  }

  /** SumOn added up over the cards. */
  function SumsOver(cards: seq<BankCard>, categories: seq<Category>): real {
    if cards == [] then 0.0
    else SumsOver(cards[..|cards| - 1], categories) + SumOn(categories, cards[|cards| - 1].id)
  }

  /** The bars of the statistics chart add up to CountsOver. */
  lemma {:induction false} BarsAddUp(cards: seq<BankCard>, categories: seq<Category>)
    ensures SumCounts(CardStats(cards, categories)) == CountsOver(cards, categories)
    decreases |cards|
  {
    if cards != [] {
      var r := CardStats(cards, categories);
      assert r[..|r| - 1] == CardStats(cards[..|cards| - 1], categories);
      BarsAddUp(cards[..|cards| - 1], categories);
    }
  }

  /** The ids of all but the last card. */
  lemma InitIds(cards: seq<BankCard>)
    requires cards != []
    ensures CardIds(cards) == CardIds(cards[..|cards| - 1]) + {cards[|cards| - 1].id}
  {
    assert cards == cards[..|cards| - 1] + [cards[|cards| - 1]];
  }

  /** With distinct card ids, appending one category adds one to the count
      and its cashback to the sum of the one card it names, if any. */
  lemma {:induction false} OverSnoc(cards: seq<BankCard>, categories: seq<Category>, c: Category)
    requires DistinctIds(cards)
    ensures CountsOver(cards, categories + [c])
      == CountsOver(cards, categories) + (if c.cardId in CardIds(cards) then 1 else 0)
    ensures SumsOver(cards, categories + [c])
      == SumsOver(cards, categories) + (if c.cardId in CardIds(cards) then c.cashback else 0.0)
    decreases |cards|
  {
    if cards != [] {
      var init, last := cards[..|cards| - 1], cards[|cards| - 1];
      assert (categories + [c])[..|categories|] == categories;
      InitIds(cards);
      OverSnoc(init, categories, c);
      if last.id == c.cardId {
        forall k | k in init
          ensures k.id != last.id
        {
          var j :| 0 <= j < |init| && init[j] == k;
          assert cards[j] == k;
        }
      }
    }
  }

  /** With no categories every card counts zero. */
  lemma {:induction false} NothingOver(cards: seq<BankCard>)
    ensures CountsOver(cards, []) == 0 && SumsOver(cards, []) == 0.0
    decreases |cards|
  {
    if cards != [] {
      NothingOver(cards[..|cards| - 1]);
    }
  }

  /** With distinct card ids and no orphan category, every category is counted
      under exactly one card: the per-card counts add up to the category count
      and the per-card sums to the total cashback. */
  lemma {:induction false} OverCoversAll(cards: seq<BankCard>, categories: seq<Category>)
    requires DistinctIds(cards) && Linked(cards, categories)
    ensures CountsOver(cards, categories) == |categories|
    ensures SumsOver(cards, categories) == Total(categories)
    decreases |categories|
  {
    if categories == [] {
      NothingOver(cards);
    } else {
      var init, last := categories[..|categories| - 1], categories[|categories| - 1];
      assert categories == init + [last];
      assert last in categories;
      OverCoversAll(cards, init);
      OverSnoc(cards, init, last);
    }
  }

  /** With distinct card ids and no orphan category, the bars of the statistics
      chart add up to the category tile, and the sums the bars average add up
      to the total the average tile divides. */
  lemma StatsAddUpToSummary(cards: seq<BankCard>, categories: seq<Category>)
    requires DistinctIds(cards) && Linked(cards, categories)
    ensures SumCounts(CardStats(cards, categories)) == SummaryOf(cards, categories).categoryCount
    ensures |categories| > 0 ==>
      SumsOver(cards, categories) == SummaryOf(cards, categories).avgCashback * (|categories| as real)
  {
    BarsAddUp(cards, categories);
    OverCoversAll(cards, categories);
  }

  /** Appending one category updates every card's count and sum by at most one entry. */
  lemma OnSnoc(categories: seq<Category>, c: Category)
    ensures forall id :: CountOn(categories + [c], id) == CountOn(categories, id) + (if c.cardId == id then 1 else 0)
    ensures forall id :: SumOn(categories + [c], id) == SumOn(categories, id) + (if c.cardId == id then c.cashback else 0.0)
  {
    assert (categories + [c])[..|categories|] == categories;
  }

  /** What each seeded card carries: two categories each, summing to 8, 17 and 6. */
  lemma SeedTotals()
    ensures CountOn(SeedCategories(), "1") == 2 && SumOn(SeedCategories(), "1") == 8.0
    ensures CountOn(SeedCategories(), "2") == 2 && SumOn(SeedCategories(), "2") == 17.0
    ensures CountOn(SeedCategories(), "3") == 2 && SumOn(SeedCategories(), "3") == 6.0
    ensures Total(SeedCategories()) == 31.0
  {
    var cats := SeedCategories();
    assert cats[..1] == cats[..0] + [cats[0]];
    OnSnoc(cats[..0], cats[0]);
    TotalSnoc(cats[..0], cats[0]);
    assert cats[..2] == cats[..1] + [cats[1]];
    OnSnoc(cats[..1], cats[1]);
    TotalSnoc(cats[..1], cats[1]);
    assert cats[..3] == cats[..2] + [cats[2]];
    OnSnoc(cats[..2], cats[2]);
    TotalSnoc(cats[..2], cats[2]);
    assert cats[..4] == cats[..3] + [cats[3]];
    OnSnoc(cats[..3], cats[3]);
    TotalSnoc(cats[..3], cats[3]);
    assert cats[..5] == cats[..4] + [cats[4]];
    OnSnoc(cats[..4], cats[4]);
    TotalSnoc(cats[..4], cats[4]);
    assert cats[..6] == cats[..5] + [cats[5]];
    OnSnoc(cats[..5], cats[5]);
    TotalSnoc(cats[..5], cats[5]);
    assert cats[..6] == cats;
  }

  /** The statistics chart as first shown (the seeded cards carry the ids 1,
      2 and 3): two categories on each card, with averages 4, 8.5 and 3. */
  lemma SeedStats(cards: seq<BankCard>, categories: seq<Category>)
    requires |cards| == 3 && cards[0].id == "1" && cards[1].id == "2" && cards[2].id == "3"
    requires categories == SeedCategories()
    ensures |CardStats(cards, categories)| == 3
    ensures CardStats(cards, categories)[0].categories == 2 && CardStats(cards, categories)[0].avgCashback == 4.0
    ensures CardStats(cards, categories)[1].categories == 2 && CardStats(cards, categories)[1].avgCashback == 8.5
    ensures CardStats(cards, categories)[2].categories == 2 && CardStats(cards, categories)[2].avgCashback == 3.0
  {
    SeedTotals();
  }

  /** The summary tiles as first shown: 3 cards, 6 categories, average 31/6. */
  lemma SeedSummary(cards: seq<BankCard>, categories: seq<Category>)
    requires cards == SeedCards() && categories == SeedCategories()
    ensures SummaryOf(cards, categories) == Summary(3, 6, 31.0 / 6.0)
  {
    SeedTotals();
  }
}
