/**
 * The product page (src/Pages/ProductDetails/ProductDetails.tsx): the product named by the address,
 * its similar and related products, the quantity buttons once it is in the cart, and the
 * checkout button that appears after adding it.
 */
module ProductDetails {
  import opened Wrappers
  import opened Seqs
  import opened Catalogue
  import opened Events
  import opened Cart

  /** Position k holds the first product with that id. */
  predicate FirstWithId(catalogue: seq<Product>, id: int, k: int) {
    0 <= k < |catalogue| && catalogue[k].id == id && forall j :: 0 <= j < k ==> catalogue[j].id != id
  }

  /** `allProducts.find((p) => p.id === id)`: the first product with that id. */
  function FindProduct(catalogue: seq<Product>, id: int): (r: Option<Product>)
    ensures r.Some? ==> r.value in catalogue && r.value.id == id
    ensures r.None? <==> forall p :: p in catalogue ==> p.id != id
    ensures forall k :: FirstWithId(catalogue, id, k) ==> r == Some(catalogue[k])
  {
    if catalogue == [] then None
    else if catalogue[0].id == id then Some(catalogue[0])
    else
      assert forall k :: FirstWithId(catalogue, id, k) ==> FirstWithId(catalogue[1..], id, k - 1);
      FindProduct(catalogue[1..], id)
  }

  /** `productId ? allProducts.find(...) : null`, with the address id already parsed (None when
      missing or not a number): the id 0 is falsy, so it never finds a product. */
  function SelectedProduct(catalogue: seq<Product>, productId: Option<int>): (r: Option<Product>)
    ensures productId.None? || productId.value == 0 ==> r.None?
    ensures productId.Some? && productId.value != 0 ==> r == FindProduct(catalogue, productId.value)
  {
    if productId.None? || productId.value == 0 then None else FindProduct(catalogue, productId.value)
  }

  /** The initial category of the related list: the product's card, or "All" when it has none. */
  function InitialDetailCategory(selected: Option<Product>): (c: string)
    ensures c != ""
    ensures selected.Some? && selected.value.categoryCard != "" ==> c == selected.value.categoryCard
  {
    if selected.Some? && selected.value.categoryCard != "" then selected.value.categoryCard else "All"
  }

  /** getRelatedProducts. */
  function RelatedProducts(catalogue: seq<Product>, selected: Product, categoryCard: string): seq<Product> {
    if categoryCard == "All" then Filter(catalogue, (p: Product) => p.id != selected.id)
    else Filter(catalogue, (p: Product) => p.categoryCard == categoryCard && p.id != selected.id)
  }

  /** getSimilarProducts. */
  function SimilarProducts(catalogue: seq<Product>, selected: Product): seq<Product> {
    Filter(catalogue, (p: Product) => p.name == selected.name && p.id != selected.id)
  }

  /** The similar products shown: three, or five once expanded. */
  function DisplayedSimilar(similar: seq<Product>, showAll: bool): (shown: seq<Product>)
    ensures |shown| == if |similar| < (if showAll then 5 else 3) then |similar| else (if showAll then 5 else 3)
    ensures shown == similar[..|shown|]
  {
    Take(similar, if showAll then 5 else 3)
  }

  /** The related products shown: eight, or all once expanded. */
  function DisplayedRelated(related: seq<Product>, showAll: bool): (shown: seq<Product>)
    ensures showAll ==> shown == related
    ensures !showAll ==> |shown| == (if |related| < 8 then |related| else 8) && shown == related[..|shown|]
  {
    if showAll then related else Take(related, 8)
  }

  /** With "All" the related list is every other product; with a card it is the other products of
      that card. Either way it keeps catalogue order and never holds the page's product. */
  lemma RelatedProductsSpec(catalogue: seq<Product>, selected: Product, categoryCard: string)
    ensures var r := RelatedProducts(catalogue, selected, categoryCard);
      && IsSubsequence(r, catalogue)
      && (forall p :: p in r ==> p.id != selected.id)
      && (categoryCard == "All" ==> forall p :: p in r <==> p in catalogue && p.id != selected.id)
      && (categoryCard != "All" ==> forall p :: p in r <==> p in catalogue && p.categoryCard == categoryCard && p.id != selected.id)
  {
  }

  /** The similar products share the product's name and have another id, in catalogue order. */
  lemma SimilarProductsSpec(catalogue: seq<Product>, selected: Product)
    ensures var r := SimilarProducts(catalogue, selected);
      && IsSubsequence(r, catalogue)
      && (forall p :: p in r <==> p in catalogue && p.name == selected.name && p.id != selected.id)
      && selected !in r
  {
  }

  /** Soup pouches 1 and 9 share a name, so each is the other's similar product. */
  lemma SimilarExample()
    ensures SimilarProducts([SoupPouch, SoupPouchAgain], SoupPouch) == [SoupPouchAgain]
  {
    var p := (q: Product) => q.name == SoupPouch.name && q.id != SoupPouch.id;
    assert [SoupPouch, SoupPouchAgain][1..] == [SoupPouchAgain];
    assert Filter([SoupPouchAgain], p) == [SoupPouchAgain] + Filter([], p);
  }

  /** The quantity buttons shown once the product is in the cart. */
  function MinusRequest(selected: Product, inCart: Line): Effect {
    UpdateQuantity(selected.id, inCart.quantity - 1)
  }

  function PlusRequest(selected: Product, inCart: Line): Effect {
    UpdateQuantity(selected.id, inCart.quantity + 1)
  }

  /** Minus on a line of quantity 1 asks for 0, and the store then drops the line: the page goes back
      to its add button. Above 1 the line stays with one less. */
  lemma MinusAtOneRemovesLine(s: CartState, selected: Product, k: nat)
    requires Consistent(s) && k < |s.items| && s.items[k].id == selected.id
    ensures s.items[k].quantity == 1 ==> FindLine(ApplyEffect(s, MinusRequest(selected, s.items[k])).items, selected.id).None?
    ensures s.items[k].quantity > 1 ==>
      ApplyEffect(s, MinusRequest(selected, s.items[k])).items == s.items[k := s.items[k].(quantity := s.items[k].quantity - 1)]
    ensures Consistent(ApplyEffect(s, MinusRequest(selected, s.items[k])))
  {
    if s.items[k].quantity == 1 {
      UpdateNonPositiveRemoves(s, selected.id, 0);
    } else {
      UpdatePresent(s, k, s.items[k].quantity - 1);
    }
  }

  /** Plus on the page's line adds one to it. */
  lemma PlusAddsOne(s: CartState, selected: Product, k: nat)
    requires Consistent(s) && k < |s.items| && s.items[k].id == selected.id
    ensures ApplyEffect(s, PlusRequest(selected, s.items[k])).items == s.items[k := s.items[k].(quantity := s.items[k].quantity + 1)]
    ensures ApplyEffect(s, PlusRequest(selected, s.items[k])).count == s.count + 1
    ensures Consistent(ApplyEffect(s, PlusRequest(selected, s.items[k])))
  {
    UpdatePresent(s, k, s.items[k].quantity + 1);
  }

  /** The page's state for a product that was found. The route `/product/:id` renders one element for
      every id, so moving from one product to another keeps this object: only `selected` follows the
      address. */
  class DetailsPage {
    var selected: Product
    var showAllSimilar: bool
    var showAllRelated: bool
    var showCheckoutButton: bool
    var detailViewCategory: string
    /** Whether the product now shown was added from this page since it was shown. */
    ghost var ownAdded: bool

    /** The checkout button is shown only after the page's own product was added. */
    ghost predicate ButtonHonest()
      reads this
    {
      showCheckoutButton ==> ownAdded
    }

    /** The first mount of the page. */
    constructor (product: Product)
      ensures selected == product
      ensures !showAllSimilar && !showAllRelated && !showCheckoutButton
      ensures detailViewCategory == InitialDetailCategory(Some(product))
      ensures !ownAdded && ButtonHonest()
    {
      selected := product;
      showAllSimilar := false;
      showAllRelated := false;
      showCheckoutButton := false;
      detailViewCategory := if product.categoryCard != "" then product.categoryCard else "All";
      ownAdded := false;
    }

    /** handleProductClick: a similar or related product opens in the same route, so the page keeps
        its expansions, its checkout-button flag and its related-products category; the initial
        category is not worked out again. */
    method ShowProduct(product: Product)
      modifies this
      ensures selected == product && !ownAdded
      ensures showCheckoutButton == old(showCheckoutButton)
      ensures showAllSimilar == old(showAllSimilar) && showAllRelated == old(showAllRelated)
      ensures detailViewCategory == old(detailViewCategory)
    {
      selected := product;
      ownAdded := false;
    }

    /** The navigation as evidently intended: the page for the new product starts as a first mount
        would, which keeps the checkout button honest. */
    method ShowProductRemounted(product: Product)
      modifies this
      ensures selected == product
      ensures !showAllSimilar && !showAllRelated && !showCheckoutButton
      ensures detailViewCategory == InitialDetailCategory(Some(product))
      ensures !ownAdded && ButtonHonest()
    {
      selected := product;
      showAllSimilar := false;
      showAllRelated := false;
      showCheckoutButton := false;
      detailViewCategory := if product.categoryCard != "" then product.categoryCard else "All";
      ownAdded := false;
    }

    /** The Checkout button is drawn inside the quantity controls, which appear only while the cart
        holds a line for the product shown; the flag alone does not draw it. */
    function CheckoutVisible(items: seq<Line>): (visible: bool)
      reads this
      ensures visible <==> showCheckoutButton && exists l :: l in items && l.id == selected.id
    {
      showCheckoutButton && FindLine(items, selected.id).Some?
    }

    /** handleAddToCartClick: the product goes to the cart; the checkout button appears only when it
        is the page's own product, and once shown it stays. */
    method HandleAddToCartClick(product: Product) returns (effects: seq<Effect>)
      modifies this
      ensures effects == [AddToCart(product)]
      ensures showCheckoutButton == (old(showCheckoutButton) || product.id == selected.id)
      ensures ownAdded == (old(ownAdded) || product.id == selected.id)
      ensures selected == old(selected)
      ensures showAllSimilar == old(showAllSimilar) && showAllRelated == old(showAllRelated)
      ensures detailViewCategory == old(detailViewCategory)
      ensures old(ButtonHonest()) ==> ButtonHonest()
    {
      effects := [AddToCart(product)];
      if product.id == selected.id {
        showCheckoutButton := true;
        ownAdded := true;
      }
    }

    /** A category card's onClick. */
    method SelectCategory(name: string)
      modifies this
      ensures detailViewCategory == name
      ensures selected == old(selected) && ownAdded == old(ownAdded)
      ensures showCheckoutButton == old(showCheckoutButton)
      ensures showAllSimilar == old(showAllSimilar) && showAllRelated == old(showAllRelated)
    {
      detailViewCategory := name;
    }

    method ToggleShowAllSimilar()
      modifies this
      ensures showAllSimilar == !old(showAllSimilar)
      ensures selected == old(selected) && ownAdded == old(ownAdded)
      ensures showAllRelated == old(showAllRelated) && showCheckoutButton == old(showCheckoutButton)
      ensures detailViewCategory == old(detailViewCategory)
    {
      showAllSimilar := !showAllSimilar;
    }

    method ToggleShowAllRelated()
      modifies this
      ensures showAllRelated == !old(showAllRelated)
      ensures selected == old(selected) && ownAdded == old(ownAdded)
      ensures showAllSimilar == old(showAllSimilar) && showCheckoutButton == old(showCheckoutButton)
      ensures detailViewCategory == old(detailViewCategory)
    {
      showAllRelated := !showAllRelated;
    }
  }

  /** On product 1: add it, add product 9 from its similar-product card, pick the "Snacks & FastFood"
      card, then open 9. The page for 9 draws the Checkout button beside its quantity controls,
      although its own add button was never pressed, and lists related products of the picked card
      instead of 9's own. Opening 9 as a first mount shows the quantity controls without the Checkout
      button, and 9's own category. */
  method NavigationCarriesState() returns (inCart: bool, buttonShown: bool, ghost honest: bool,
      category: string, remountedButton: bool, remountedCategory: string)
    ensures inCart && buttonShown && !honest
    ensures category == "Snacks & FastFood" && category != InitialDetailCategory(Some(SoupPouchAgain))
    ensures !remountedButton && remountedCategory == InitialDetailCategory(Some(SoupPouchAgain))
  {
    var cart := CartState([], 0);
    var page := new DetailsPage(SoupPouch);
    var effects := page.HandleAddToCartClick(SoupPouch);
    cart := ApplyEffect(cart, effects[0]);
    effects := page.HandleAddToCartClick(SoupPouchAgain);
    cart := ApplyEffect(cart, effects[0]);
    assert cart.items == [NewLine(SoupPouch), NewLine(SoupPouchAgain)];
    inCart := FindLine(cart.items, SoupPouchAgain.id).Some?;
    page.SelectCategory("Snacks & FastFood");
    page.ShowProduct(SoupPouchAgain);
    buttonShown := page.CheckoutVisible(cart.items);
    honest := page.ButtonHonest();
    category := page.detailViewCategory;
    var other := new DetailsPage(SoupPouch);
    effects := other.HandleAddToCartClick(SoupPouch);
    effects := other.HandleAddToCartClick(SoupPouchAgain);
    other.SelectCategory("Snacks & FastFood");
    other.ShowProductRemounted(SoupPouchAgain);
    remountedButton := other.CheckoutVisible(cart.items);
    remountedCategory := other.detailViewCategory;
  }
}
