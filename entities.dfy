/** The records the cashback tracker keeps in memory (a bank card and a
    cashback category attached to one card), the two form drafts from which
    new records are built, the filter tests used to delete them, and the
    referential link from a category to its card. */
module Entities {

  /** `BankCard`: a payment card, identified by `id`. */
  datatype BankCard = BankCard(id: string, name: string, color: string, bank: string)

  /** `Category`: a spending category with its cashback percentage, attached
      to the card whose id is `cardId`. The percentage is an exact number. */
  datatype Category = Category(id: string, name: string, cashback: real, cardId: string, icon: string)

  /** The "new card" form: every field of a card except its id. */
  datatype CardDraft = CardDraft(name: string, bank: string, color: string)

  /** The "new category" form: every field of a category except its id. */
  datatype CategoryDraft = CategoryDraft(name: string, cashback: real, cardId: string, icon: string)

  /** The colour palette a new card picks its colour from. */
  const Palette: seq<string> := ["#8B5CF6", "#D946EF", "#0EA5E9", "#F97316", "#10B981"]

  /** The icon a new category starts with. */
  const DefaultIcon: string := "Star"

  /** The card form as first shown and as reset after a card is created. */
  const BlankCardDraft: CardDraft := CardDraft("", "", Palette[0])

  /** The category form as first shown and as reset after a category is created. */
  const BlankCategoryDraft: CategoryDraft := CategoryDraft("", 0.0, "", DefaultIcon)

  /** JavaScript truthiness of a string: only the empty string is falsy. */
  predicate Truthy(s: string) {
    |s| > 0
  }

  /** The card a filled-in card form produces, given the id assigned to it. */
  function CardFrom(d: CardDraft, id: string): BankCard {
    BankCard(id, d.name, d.color, d.bank)
  }

  /** The category a filled-in category form produces, given the id assigned to it. */
  function CategoryFrom(d: CategoryDraft, id: string): Category {
    Category(id, d.name, d.cashback, d.cardId, d.icon)
  }

  // Filter tests, one per `filter` callback of the store and the statistics.

  /** Keeps the cards whose id is not `id`. */
  function OtherCard(id: string): BankCard -> bool {
    (c: BankCard) => c.id != id
  }

  /** Keeps the categories whose id is not `id`. */
  function OtherCategory(id: string): Category -> bool {
    (c: Category) => c.id != id
  }

  /** Keeps the categories attached to the card `cardId`. */
  function OnCard(cardId: string): Category -> bool {
    (c: Category) => c.cardId == cardId
  }

  /** Keeps the categories not attached to the card `cardId`. */
  function OffCard(cardId: string): Category -> bool {
    (c: Category) => c.cardId != cardId
  }

  /** The ids of the cards in `cards`. */
  function CardIds(cards: seq<BankCard>): set<string> {
    set c | c in cards :: c.id
  }

  /** Referential integrity: every category is attached to a card that exists. */
  ghost predicate Linked(cards: seq<BankCard>, categories: seq<Category>) {
    forall c :: c in categories ==> c.cardId in CardIds(cards)
  }

  /** No two cards share an id. */
  ghost predicate DistinctIds(cards: seq<BankCard>) {
    forall i, j :: 0 <= i < j < |cards| ==> cards[i].id != cards[j].id
  }

  /** The cards the page starts with. */
  function SeedCards(): seq<BankCard> {
    [ BankCard("1", "Дебетовая карта", "#8B5CF6", "Сбербанк"),
      BankCard("2", "Кредитная карта", "#D946EF", "Тинькофф"),
      BankCard("3", "Premium Card", "#0EA5E9", "Альфа-Банк") ]
  }

  /** The categories the page starts with, two per seeded card. */
  function SeedCategories(): seq<Category> {
    [ Category("1", "Рестораны", 5.0, "1", "UtensilsCrossed"),
      Category("2", "Продукты", 3.0, "1", "ShoppingCart"),
      Category("3", "Транспорт", 10.0, "2", "Car"),
      Category("4", "Развлечения", 7.0, "2", "Film"),
      Category("5", "Одежда", 4.0, "3", "Shirt"),
      Category("6", "Аптеки", 2.0, "3", "Heart") ]
  }

  /** The seeded state is consistent: distinct card ids and no orphan category. */
  lemma SeedIsLinked()
    ensures DistinctIds(SeedCards())
    ensures Linked(SeedCards(), SeedCategories())
  {
    var ids := CardIds(SeedCards());
    assert SeedCards()[0] in SeedCards() && SeedCards()[1] in SeedCards() && SeedCards()[2] in SeedCards();
    assert "1" in ids && "2" in ids && "3" in ids;
  }
}
