/**
 * The storm cards of the map page: the colour of a storm's category label and
 * which card is highlighted as the selected one.
 */
module StormMap {
  import opened Wrappers
  import opened StormFeeds

  /** The four colours of the category label, from least to most severe. */
  datatype Tier = Blue | Yellow | Orange | Red

  function Rank(t: Tier): nat
  {
    match t
    case Blue => 0
    case Yellow => 1
    case Orange => 2
    case Red => 3
  }

  /** The chain of conditional returns of `getCategoryColor`, as a tier. */
  function CategoryTier(category: int): Tier
  {
    if category >= 5 then Red
    else if category >= 3 then Orange
    else if category >= 1 then Yellow
    else Blue
  }

  function TierClass(t: Tier): string
  {
    match t
    case Red => "text-red-600"
    case Orange => "text-orange-600"
    case Yellow => "text-yellow-600"
    case Blue => "text-blue-600"
  }

  /** `getCategoryColor` */
  function CategoryColor(category: int): string
  {
    TierClass(CategoryTier(category))
  }

  /** Each colour is given for exactly its band of categories. */
  lemma CategoryBands(category: int)
    ensures CategoryColor(category) == "text-red-600" <==> category >= 5
    ensures CategoryColor(category) == "text-orange-600" <==> 3 <= category <= 4
    ensures CategoryColor(category) == "text-yellow-600" <==> 1 <= category <= 2
    ensures CategoryColor(category) == "text-blue-600" <==> category < 1
  {
  }

  /** A higher category never gets a less severe colour. */
  lemma TierMonotone(c1: int, c2: int)
    requires c1 <= c2
    ensures Rank(CategoryTier(c1)) <= Rank(CategoryTier(c2))
  {
  }

  /** Every scraped storm is category 3, so every card of the live list is orange. */
  lemma ScrapedStormsOrange(elems: seq<StormElement>, j: nat)
    requires j < |ActiveStorms(elems)|
    ensures CategoryColor(ActiveStorms(elems)[j].category) == "text-orange-600"
  {
    ActiveStormsSound(elems);
  }

  /** `selectedStorm?.id === storm.id`: no card is highlighted while nothing is selected. */
  predicate Highlighted(selected: Option<Storm>, s: Storm)
  {
    selected.Some? && selected.value.id == s.id
  }

  /** In the live list, at most one card is highlighted: the ids differ from card to card. */
  lemma AtMostOneHighlighted(elems: seq<StormElement>, selected: Option<Storm>, j: nat, k: nat)
    requires j < |ActiveStorms(elems)| && k < |ActiveStorms(elems)|
    requires Highlighted(selected, ActiveStorms(elems)[j]) && Highlighted(selected, ActiveStorms(elems)[k])
    ensures j == k
  {
    ActiveStormIdsIncrease(elems);
  }
}
