/**
 * The home page (src/Pages/Home/Home.tsx): category tabs over sections of popular category cards,
 * and the "added to cart" toast fed from the shared cart.
 */
module Home {
  import opened Wrappers
  import opened Seqs
  import opened Catalogue
  import opened Events
  import opened Cart
  import CartToast
  import CartSideBar

  /** getFilteredProductsForCategory: the products of a category card, narrowed to the active tab's
      category unless the tab is "All". */
  function SectionProducts(catalogue: seq<Product>, activeCategory: string, categoryName: string): seq<Product> {
    var cardProducts := Filter(catalogue, (p: Product) => p.categoryCard == categoryName);
    if activeCategory == "All" then cardProducts
    else Filter(cardProducts, (p: Product) => p.category == activeCategory)
  }

  /** The sections rendered: a category card with no products renders nothing. */
  function VisibleSections(catalogue: seq<Product>, activeCategory: string, cards: seq<string>): seq<string> {
    Filter(cards, (name: string) => SectionProducts(catalogue, activeCategory, name) != [])
  }

  /** Under "All" a section is every product of its card; under another tab, the products of the
      card in that tab's category. Both keep catalogue order. */
  lemma {:induction false} SectionProductsSpec(catalogue: seq<Product>, activeCategory: string, categoryName: string)
    ensures var r := SectionProducts(catalogue, activeCategory, categoryName);
      && IsSubsequence(r, catalogue)
      && (activeCategory == "All" ==> forall p :: p in r <==> p in catalogue && p.categoryCard == categoryName)
      && (activeCategory != "All" ==> forall p :: p in r <==>
            p in catalogue && p.categoryCard == categoryName && p.category == activeCategory)
  {
    var cardProducts := Filter(catalogue, (p: Product) => p.categoryCard == categoryName);
    if activeCategory != "All" {
      SubsequenceTrans(Filter(cardProducts, (p: Product) => p.category == activeCategory), cardProducts, catalogue);
    }
  }

  /** A card gets a section exactly when some product is in it (and in the tab's category). */
  lemma VisibleSectionsSpec(catalogue: seq<Product>, activeCategory: string, cards: seq<string>)
    ensures forall name :: name in VisibleSections(catalogue, activeCategory, cards) <==>
      name in cards && SectionProducts(catalogue, activeCategory, name) != []
    ensures IsSubsequence(VisibleSections(catalogue, activeCategory, cards), cards)
  {
  }

  /** Position k holds the first cart line with that name. */
  predicate FirstNamed(items: seq<Line>, name: string, k: int) {
    0 <= k < |items| && items[k].name == name && forall j :: 0 <= j < k ==> items[j].name != name
  }

  /** `cartItems.find((item) => item.name === lastAddedItem)`: the toast's line, looked up by name. */
  function ToastLine(items: seq<Line>, lastAddedName: string): (r: Option<Line>)
    ensures r.Some? ==> r.value in items && r.value.name == lastAddedName
    ensures r.None? <==> forall l :: l in items ==> l.name != lastAddedName
    ensures forall k :: FirstNamed(items, lastAddedName, k) ==> r == Some(items[k])
  {
    if items == [] then None
    else if items[0].name == lastAddedName then Some(items[0])
    else
      assert forall k :: FirstNamed(items, lastAddedName, k) ==> FirstNamed(items[1..], lastAddedName, k - 1);
      ToastLine(items[1..], lastAddedName)
  }

  /** Of two lines with the same name, the toast takes the earlier one, wherever the pair sits. */
  lemma ToastTakesEarlierSameName(before: Line, first: Line, second: Line, name: string)
    requires before.name != name && first.name == name && second.name == name
    ensures ToastLine([before, first, second], name) == Some(first)
  {
    assert FirstNamed([before, first, second], name, 1);
  }

  /** The lookup as intended: by the id of the product just added. */
  function ToastLineById(items: seq<Line>, lastAddedId: int): Option<Line> {
    FindLine(items, lastAddedId)
  }

  /** The toast's props: `id ?? 0`, `quantity ?? 1`, `price ?? 0`. */
  datatype ToastProps = ToastProps(itemId: int, currentQuantity: int, itemPrice: int)

  function PropsFor(line: Option<Line>): (props: ToastProps)
    ensures line.Some? ==> props == ToastProps(line.value.id, line.value.quantity, line.value.price)
    ensures line.None? ==> props == ToastProps(0, 1, 0)
  {
    if line.Some? then ToastProps(line.value.id, line.value.quantity, line.value.price)
    else ToastProps(0, 1, 0)
  }

  /** Two catalogue products share a name (ids 1 and 9). After adding 1 and then 9, the toast about
      product 9 shows, and its buttons act on, the line of product 1. */
  lemma ToastNameLookupPicksOtherLine()
    ensures var s := AddStep(AddStep(CartState([], 0), SoupPouch), SoupPouchAgain);
      && s.items == [NewLine(SoupPouch), NewLine(SoupPouchAgain)]
      && ToastLine(s.items, SoupPouchAgain.name) == Some(NewLine(SoupPouch))
      && PropsFor(ToastLine(s.items, SoupPouchAgain.name)).itemId == 1
      && ToastLineById(s.items, SoupPouchAgain.id) == Some(NewLine(SoupPouchAgain))
  {
    var s1 := AddStep(CartState([], 0), SoupPouch);
    assert s1.items == [NewLine(SoupPouch)];
    assert FindLine(s1.items, SoupPouchAgain.id).None?;
    var s := AddStep(s1, SoupPouchAgain);
    assert s.items == [NewLine(SoupPouch), NewLine(SoupPouchAgain)];
    assert s.items[1..] == [NewLine(SoupPouchAgain)];
  }

  /** By id, the toast always finds the line of the product just added, whatever the names. */
  lemma ToastLineByIdFindsAdded(s: CartState, p: Product)
    requires Consistent(s)
    ensures ToastLineById(AddStep(s, p).items, p.id).Some?
    ensures ToastLineById(AddStep(s, p).items, p.id).value.id == p.id
  {
    var r := AddStep(s, p);
    if FindLine(s.items, p.id).Some? {
      var l := FindLine(s.items, p.id).value;
      var k :| 0 <= k < |s.items| && s.items[k] == l;
      AddExisting(s, p, k);
      assert r.items[k] in r.items;
    } else {
      AddNew(s, p);
      assert r.items[|s.items|] in r.items;
    }
  }

  /** While its line is in the cart the toast shows that line's row total from the sidebar; once the
      line is gone it shows 0. */
  lemma ToastAmountIsRowTotal(items: seq<Line>, lastAddedName: string)
    ensures var props := PropsFor(ToastLine(items, lastAddedName));
      var shown := CartToast.DisplayedAmount(true, props.itemPrice, props.currentQuantity);
      && (ToastLine(items, lastAddedName).Some? ==> shown == Some(CartSideBar.LineTotal(ToastLine(items, lastAddedName).value)))
      && (ToastLine(items, lastAddedName).None? ==> shown == Some(0))
  {
  }

  /** Once the toast's line has left the cart (removed from the sidebar while the toast shows), the
      toast falls back to id 0 and quantity 1; its plus button then asks the store for id 0 at
      quantity 2, which leaves the lines alone and raises the count by 2. */
  lemma ToastAfterLineRemovedDrifts(s: CartState, lastAddedName: string)
    requires Consistent(s)
    requires ToastLine(s.items, lastAddedName).None? && FindLine(s.items, 0).None?
    ensures var props := PropsFor(ToastLine(s.items, lastAddedName));
      var r := ApplyEffects(s, CartToast.PlusPress(props.itemId, props.currentQuantity));
      r.items == s.items && r.count == s.count + 2 && !Consistent(r)
  {
    CartToast.PlusOnMissingLineDrifts(s, 0, 1);
  }

  /** The page's own state. */
  class HomePage {
    var activeCategory: string
    var activeCategoryCard: Option<string>
    var showToast: bool
    var lastAddedItem: string
    var isCartOpen: bool

    constructor ()
      ensures activeCategory == "All" && activeCategoryCard == None
      ensures !showToast && lastAddedItem == "" && !isCartOpen
    {
      activeCategory := "All";
      activeCategoryCard := None;
      showToast := false;
      lastAddedItem := "";
      isCartOpen := false;
    }

    /** The tab bar's onCategoryChange: a new tab clears the highlighted category card. */
    method ChangeTab(category: string)
      modifies this
      ensures activeCategory == category && activeCategoryCard == None
      ensures showToast == old(showToast) && lastAddedItem == old(lastAddedItem) && isCartOpen == old(isCartOpen)
    {
      activeCategory := category;
      activeCategoryCard := None;
    }

    /** handleCategoryCardClick: the card is highlighted (the scroll to its section is left out). */
    method HandleCategoryCardClick(name: string)
      modifies this
      ensures activeCategoryCard == Some(name) && activeCategory == old(activeCategory)
      ensures showToast == old(showToast) && lastAddedItem == old(lastAddedItem) && isCartOpen == old(isCartOpen)
    {
      activeCategoryCard := Some(name);
    }

    /** handleAddToCart: add to the cart, remember the product's name, show the toast. */
    method HandleAddToCart(product: Product) returns (effects: seq<Effect>)
      modifies this
      ensures effects == [AddToCart(product)]
      ensures lastAddedItem == product.name && showToast
      ensures activeCategory == old(activeCategory) && activeCategoryCard == old(activeCategoryCard)
      ensures isCartOpen == old(isCartOpen)
    {
      effects := [AddToCart(product)];
      lastAddedItem := product.name;
      showToast := true;
    }

    /** The toast's "view cart": hide the toast and open the drawer. */
    method ViewCart()
      modifies this
      ensures !showToast && isCartOpen
      ensures activeCategory == old(activeCategory) && activeCategoryCard == old(activeCategoryCard)
      ensures lastAddedItem == old(lastAddedItem)
    {
      showToast := false;
      isCartOpen := true;
    }

    /** The toast's onClose. */
    method CloseToast()
      modifies this
      ensures !showToast
      ensures activeCategory == old(activeCategory) && activeCategoryCard == old(activeCategoryCard)
      ensures lastAddedItem == old(lastAddedItem) && isCartOpen == old(isCartOpen)
    {
      showToast := false;
    }
  }
}
