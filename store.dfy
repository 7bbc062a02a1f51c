/** The page's state: the cards, the categories and the two form drafts, and
    the four handlers that change them. Each handler is one atomic step over
    the current state; the id a new record receives (the page takes the
    current time in milliseconds) is a parameter. */
module Store {
  import opened Sequences
  import opened Entities

  // ---------------------------------------------------------------------
  // Integrity of the card/category link under each change

  /** Adding a card never orphans a category. */
  lemma AddCardKeepsLinks(cards: seq<BankCard>, categories: seq<Category>, card: BankCard)
    requires Linked(cards, categories)
    ensures Linked(cards + [card], categories)
  {
    forall c | c in categories
      ensures c.cardId in CardIds(cards + [card])
    {
      var k :| k in cards && k.id == c.cardId;
      assert k in cards + [card];
    }
  }

  /** Adding a category keeps every category linked exactly when it names a live card. */
  lemma AddCategoryLinks(cards: seq<BankCard>, categories: seq<Category>, category: Category)
    requires Linked(cards, categories)
    ensures Linked(cards, categories + [category]) <==> category.cardId in CardIds(cards)
  {
    assert category in categories + [category];
    assert forall c :: c in categories + [category] ==> c in categories || c == category;
  }

  /** Deleting a card together with its categories never orphans a category. */
  lemma DeleteCardKeepsLinks(cards: seq<BankCard>, categories: seq<Category>, id: string)
    requires Linked(cards, categories)
    ensures Linked(Filter(cards, OtherCard(id)), Filter(categories, OffCard(id)))
  {
    var live := Filter(cards, OtherCard(id));
    forall c | c in Filter(categories, OffCard(id))
      ensures c.cardId in CardIds(live)
    {
      var k :| k in cards && k.id == c.cardId;
      assert OtherCard(id)(k);
      assert k in live;
    }
  }

  /** Deleting a category never orphans another one. */
  lemma DeleteCategoryKeepsLinks(cards: seq<BankCard>, categories: seq<Category>, id: string)
    requires Linked(cards, categories)
    ensures Linked(cards, Filter(categories, OtherCategory(id)))
  {
  }

  /** Appending a card keeps the ids distinct exactly when its id is new. */
  lemma {:induction false} FreshIdKeepsDistinct(cards: seq<BankCard>, card: BankCard)
    requires DistinctIds(cards)
    ensures DistinctIds(cards + [card]) <==> card.id !in CardIds(cards)
  {
    var s := cards + [card];
    if card.id in CardIds(cards) {
      var k :| k in cards && k.id == card.id;
      var j :| 0 <= j < |cards| && cards[j] == k;
      assert s[j].id == s[|cards|].id;
    } else {
      forall i, j | 0 <= i < j < |s|
        ensures s[i].id != s[j].id
      {
        if j == |cards| {
          assert s[i] in cards;
        }
      }
    }
  }

  /** Deleting cards never makes two of the remaining ones share an id. */
  lemma {:induction false} DeleteCardKeepsDistinct(cards: seq<BankCard>, id: string)
    requires DistinctIds(cards)
    ensures DistinctIds(Filter(cards, OtherCard(id)))
    decreases |cards|
  {
    if cards != [] {
      var init, last := cards[..|cards| - 1], cards[|cards| - 1];
      assert cards == init + [last];
      assert DistinctIds(init) by {
        forall i, j | 0 <= i < j < |init|
          ensures init[i].id != init[j].id
        {
          assert cards[i] == init[i] && cards[j] == init[j];
        }
      }
      DeleteCardKeepsDistinct(init, id);
      if OtherCard(id)(last) {
        FreshIdKeepsDistinct(init, last);
        var kept := Filter(init, OtherCard(id));
        assert last.id !in CardIds(kept) by {
          forall k | k in kept
            ensures k.id != last.id
          {
            assert k in init;
          }
        }
        FreshIdKeepsDistinct(kept, last);
      }
    }
  }

  // ---------------------------------------------------------------------
  // The state and its handlers

  class CashbackStore {
    var cards: seq<BankCard>
    var categories: seq<Category>
    var newCard: CardDraft
    var newCategory: CategoryDraft

    /** The page as first rendered: three cards, six categories, blank forms. */
    constructor ()
      ensures cards == SeedCards() && categories == SeedCategories()
      ensures newCard == BlankCardDraft && newCategory == BlankCategoryDraft
      ensures DistinctIds(cards) && Linked(cards, categories)
    {
      cards := SeedCards();
      categories := SeedCategories();
      newCard := BlankCardDraft;
      newCategory := BlankCategoryDraft;
      SeedIsLinked();
    }

    /** `addCard`: with a name and a bank filled in, appends the drafted card
        under the id `id` and clears the form; otherwise changes nothing. */
    method AddCard(id: string)
      modifies this
      ensures categories == old(categories) && newCategory == old(newCategory)
      ensures Truthy(old(newCard).name) && Truthy(old(newCard).bank) ==>
        cards == old(cards) + [CardFrom(old(newCard), id)] && newCard == BlankCardDraft
      ensures !(Truthy(old(newCard).name) && Truthy(old(newCard).bank)) ==>
        cards == old(cards) && newCard == old(newCard)
      ensures Linked(old(cards), old(categories)) ==> Linked(cards, categories)
      ensures DistinctIds(old(cards)) && id !in CardIds(old(cards)) ==> DistinctIds(cards)
    {
      if Truthy(newCard.name) && Truthy(newCard.bank) {
        if Linked(cards, categories) {
          AddCardKeepsLinks(cards, categories, CardFrom(newCard, id));
        }
        if DistinctIds(cards) {
          FreshIdKeepsDistinct(cards, CardFrom(newCard, id));
        }
        cards := cards + [CardFrom(newCard, id)];
        newCard := BlankCardDraft;
      }
    }

    /** `addCategory`: with a name and a card chosen, appends the drafted
        category under the id `id` and clears the form; otherwise changes
        nothing. The chosen card is not checked against the live cards. */
    method AddCategory(id: string)
      modifies this
      ensures cards == old(cards) && newCard == old(newCard)
      ensures Truthy(old(newCategory).name) && Truthy(old(newCategory).cardId) ==>
        categories == old(categories) + [CategoryFrom(old(newCategory), id)]
        && newCategory == BlankCategoryDraft
      ensures !(Truthy(old(newCategory).name) && Truthy(old(newCategory).cardId)) ==>
        categories == old(categories) && newCategory == old(newCategory)
      ensures Linked(old(cards), old(categories)) && old(newCategory).cardId in CardIds(cards) ==>
        Linked(cards, categories)
    {
      if Truthy(newCategory.name) && Truthy(newCategory.cardId) {
        if Linked(cards, categories) {
          AddCategoryLinks(cards, categories, CategoryFrom(newCategory, id));
        }
        categories := categories + [CategoryFrom(newCategory, id)];
        newCategory := BlankCategoryDraft;
      }
    }

    /** `deleteCard`: drops every card with the id `id` and, in the same step,
        every category attached to it. The forms are left as they are. */
    method DeleteCard(id: string)
      modifies this
      ensures cards == Filter(old(cards), OtherCard(id))
      ensures categories == Filter(old(categories), OffCard(id))
      ensures newCard == old(newCard) && newCategory == old(newCategory)
      ensures id !in CardIds(cards)
      ensures forall c :: c in categories ==> c.cardId != id
      ensures id !in CardIds(old(cards)) && (forall c :: c in old(categories) ==> c.cardId != id) ==>
        cards == old(cards) && categories == old(categories)
      ensures Linked(old(cards), old(categories)) ==> Linked(cards, categories)
      ensures DistinctIds(old(cards)) ==> DistinctIds(cards)
    {
      if Linked(cards, categories) {
        DeleteCardKeepsLinks(cards, categories, id);
      }
      if DistinctIds(cards) {
        DeleteCardKeepsDistinct(cards, id);
      }
      cards := Filter(cards, OtherCard(id));
      categories := Filter(categories, OffCard(id));
    }

    /** `deleteCategory`: drops every category with the id `id`; nothing else changes. */
    method DeleteCategory(id: string)
      modifies this
      ensures categories == Filter(old(categories), OtherCategory(id))
      ensures cards == old(cards) && newCard == old(newCard) && newCategory == old(newCategory)
      ensures Filter(categories, OtherCategory(id)) == categories
      ensures Linked(old(cards), old(categories)) ==> Linked(cards, categories)
    {
      FilterIdempotent(categories, OtherCategory(id));
      categories := Filter(categories, OtherCategory(id));
    }
  }

  /** The category form keeps its chosen card when that card is deleted, so
      creating the category afterwards attaches it to a card that no longer
      exists: choose card "1" in the category form, delete card "1", create
      the category. */
  method StaleCardChoice() returns (cards: seq<BankCard>, categories: seq<Category>)
    ensures !Linked(cards, categories)
  {
    var store := new CashbackStore();
    store.newCategory := CategoryDraft("Кафе", 5.0, "1", DefaultIcon);
    store.DeleteCard("1");
    store.AddCategory("7");
    cards, categories := store.cards, store.categories;
    assert categories[|categories| - 1].cardId == "1";
    assert categories[|categories| - 1] in categories;
  }
}
