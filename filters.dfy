/**
 * The filter panel of the search page (src/Pages/SearchProduct/components/Filters.tsx): sort order,
 * price range, brand choice, promotion flags and delivery type. The panel keeps these to itself:
 * it never reports them to the page through its callback.
 */
module Filters {
  import opened Seqs

  /** The bounds of both price sliders. */
  const SliderLow: int := 200
  const SliderHigh: int := 1600

  datatype PriceRange = PriceRange(min: int, max: int)
  datatype Promotions = Promotions(offers: bool, freeDelivery: bool)
  datatype PromotionKey = Offers | FreeDelivery
  datatype Tab = SortTab | PromotionsTab | DeliveryTab

  /** handleBrandToggle's updater: a chosen brand is dropped, keeping the others in order; any other
      brand is added at the end. */
  function ToggleBrand(prev: seq<string>, brand: string): (r: seq<string>)
    ensures brand !in prev ==> r == prev + [brand]
    ensures brand in prev ==> brand !in r && IsSubsequence(r, prev)
    ensures brand in prev ==> forall b :: b != brand ==> (b in r <==> b in prev)
  {
    if brand in prev then Filter(prev, (b: string) => b != brand) else prev + [brand]
  }

  /** handlePromotionsChange's updater: only the named flag flips. */
  function FlipPromotion(prev: Promotions, key: PromotionKey): (r: Promotions)
    ensures key == Offers ==> r.offers == !prev.offers && r.freeDelivery == prev.freeDelivery
    ensures key == FreeDelivery ==> r.freeDelivery == !prev.freeDelivery && r.offers == prev.offers
  {
    match key
    case Offers => prev.(offers := !prev.offers)
    case FreeDelivery => prev.(freeDelivery := !prev.freeDelivery)
  }

  /** The minimum slider sends its value with the current maximum. */
  function MinSlider(range: PriceRange, value: int): (r: PriceRange)
    ensures r.min == value && r.max == range.max
  {
    PriceRange(value, range.max)
  }

  /** The maximum slider sends the current minimum with its value. */
  function MaxSlider(range: PriceRange, value: int): (r: PriceRange)
    ensures r.min == range.min && r.max == value
  {
    PriceRange(range.min, value)
  }

  /** Toggling keeps the chosen brands free of duplicates. */
  lemma ToggleKeepsNoDuplicates(prev: seq<string>, brand: string)
    requires NoDuplicates(prev)
    ensures NoDuplicates(ToggleBrand(prev, brand))
  {
    if brand in prev {
      FilterKeepsNoDuplicates(prev, (b: string) => b != brand);
    } else {
      var r := prev + [brand];
      forall i, j | 0 <= i < j < |r| ensures r[i] != r[j] {
        if j == |prev| {
          assert r[i] == prev[i];
        }
      }
    }
  }

  /** Toggling a brand that was not chosen, then toggling it again, gives back the same list. */
  lemma ToggleTwiceRestores(prev: seq<string>, brand: string)
    requires brand !in prev
    ensures ToggleBrand(ToggleBrand(prev, brand), brand) == prev
  {
    var p := (b: string) => b != brand;
    FilterAppend(prev, [brand], p);
    FilterKeepsAll(prev, p);
    assert Filter([brand], p) == [];
  }

  /** Toggling a chosen brand twice does not restore the list: the brand moves to the end. */
  lemma ToggleChosenTwiceMovesLast(prev: seq<string>, brand: string)
    requires brand in prev
    ensures ToggleBrand(ToggleBrand(prev, brand), brand) == Filter(prev, (b: string) => b != brand) + [brand]
  {
  }

  /** Flipping the same promotion twice restores the flags. */
  lemma FlipTwiceRestores(prev: Promotions, key: PromotionKey)
    ensures FlipPromotion(FlipPromotion(prev, key), key) == prev
  {
  }

  /** Nothing keeps the two ends ordered: from the initial range, the minimum slider at its top
      leaves the minimum above the maximum once the maximum slider is at its bottom. */
  lemma SlidersMayCross()
    ensures var r := MaxSlider(MinSlider(PriceRange(200, 1600), SliderHigh), SliderLow);
      r.min > r.max
  {
  }

  /** The panel's state. */
  class FilterPanel {
    var activeTab: Tab
    var sortBy: string
    var showOutOfStock: bool
    var priceRange: PriceRange
    var selectedBrands: seq<string>
    var promotions: Promotions
    var deliveryType: string

    /** The chosen brands never repeat. */
    predicate Valid()
      reads this
    {
      NoDuplicates(selectedBrands)
    }

    constructor ()
      ensures activeTab == SortTab && sortBy == "most-popular" && !showOutOfStock
      ensures priceRange == PriceRange(200, 1600) && selectedBrands == []
      ensures promotions == Promotions(false, false) && deliveryType == "fastest"
      ensures Valid()
    {
      activeTab := SortTab;
      sortBy := "most-popular";
      showOutOfStock := false;
      priceRange := PriceRange(200, 1600);
      selectedBrands := [];
      promotions := Promotions(false, false);
      deliveryType := "fastest";
    }

    method HandleBrandToggle(brand: string)
      modifies this
      ensures selectedBrands == ToggleBrand(old(selectedBrands), brand)
      ensures priceRange == old(priceRange) && promotions == old(promotions)
      ensures sortBy == old(sortBy) && showOutOfStock == old(showOutOfStock)
      ensures deliveryType == old(deliveryType) && activeTab == old(activeTab)
      ensures old(Valid()) ==> Valid()
    {
      if NoDuplicates(selectedBrands) {
        ToggleKeepsNoDuplicates(selectedBrands, brand);
      }
      if brand in selectedBrands {
        selectedBrands := Filter(selectedBrands, (b: string) => b != brand);
      } else {
        selectedBrands := selectedBrands + [brand];
      }
    }

    /** handlePriceChange: both ends are replaced, with no check that min <= max. */
    method HandlePriceChange(min: int, max: int)
      modifies this
      ensures priceRange == PriceRange(min, max)
      ensures selectedBrands == old(selectedBrands) && promotions == old(promotions)
      ensures sortBy == old(sortBy) && showOutOfStock == old(showOutOfStock)
      ensures deliveryType == old(deliveryType) && activeTab == old(activeTab)
    {
      priceRange := PriceRange(min, max);
    }

    /** The minimum slider's onChange. */
    method MinSliderChange(value: int)
      modifies this
      ensures priceRange == MinSlider(old(priceRange), value)
      ensures selectedBrands == old(selectedBrands) && promotions == old(promotions)
      ensures sortBy == old(sortBy) && showOutOfStock == old(showOutOfStock)
      ensures deliveryType == old(deliveryType) && activeTab == old(activeTab)
    {
      HandlePriceChange(value, priceRange.max);
    }

    /** The maximum slider's onChange. */
    method MaxSliderChange(value: int)
      modifies this
      ensures priceRange == MaxSlider(old(priceRange), value)
      ensures selectedBrands == old(selectedBrands) && promotions == old(promotions)
      ensures sortBy == old(sortBy) && showOutOfStock == old(showOutOfStock)
      ensures deliveryType == old(deliveryType) && activeTab == old(activeTab)
    {
      HandlePriceChange(priceRange.min, value);
    }

    method HandlePromotionsChange(key: PromotionKey)
      modifies this
      ensures promotions == FlipPromotion(old(promotions), key)
      ensures selectedBrands == old(selectedBrands) && priceRange == old(priceRange)
      ensures sortBy == old(sortBy) && showOutOfStock == old(showOutOfStock)
      ensures deliveryType == old(deliveryType) && activeTab == old(activeTab)
    {
      match key {
        case Offers => promotions := promotions.(offers := !promotions.offers);
        case FreeDelivery => promotions := promotions.(freeDelivery := !promotions.freeDelivery);
      }
    }
  }
}
