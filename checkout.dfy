/**
 * The checkout page (src/Pages/Checkout/Checkout.tsx): order figures derived from the cart,
 * the promo code, the place-order payload and the popular-category picker.
 */
module Checkout {
  import opened Wrappers
  import opened Text
  import opened Seqs
  import opened Catalogue
  import opened Cart

  const DeliveryCharge: int := 60
  const BaseDiscount: int := 20
  /** The only code that earns the discount. */
  const PromoWord: string := "FREEUSE"

  function AppliedDiscount(isCouponApplied: bool): int {
    if isCouponApplied then BaseDiscount else 0
  }

  /** `subtotal + deliveryCharge - appliedDiscount`. */
  function OrderTotal(items: seq<Line>, isCouponApplied: bool): int {
    Subtotal(items) + DeliveryCharge - AppliedDiscount(isCouponApplied)
  }

  /** `promoCode.trim().toUpperCase() === "FREEUSE"`. */
  predicate PromoMatches(code: string) {
    Upper(Trim(code)) == PromoWord
  }

  /** The figures the page shows: the subtotal sums price times quantity over the lines, delivery is
      a flat 60 and a valid coupon takes off 20. */
  lemma TotalsBreakdown(items: seq<Line>, isCouponApplied: bool)
    ensures items == [] ==> OrderTotal(items, isCouponApplied) == DeliveryCharge - AppliedDiscount(isCouponApplied)
    ensures OrderTotal(items, true) == OrderTotal(items, false) - 20
    ensures OrderTotal(items, false) == Subtotal(items) + 60
    ensures forall l :: Subtotal(items + [l]) == Subtotal(items) + l.price * l.quantity
  {
    forall l ensures Subtotal(items + [l]) == Subtotal(items) + l.price * l.quantity {
      SubtotalSnoc(items, l);
    }
  }

  lemma {:induction false} SubtotalSnoc(items: seq<Line>, l: Line)
    ensures Subtotal(items + [l]) == Subtotal(items) + l.price * l.quantity
  {
    if items == [] {
      assert items + [l] == [l];
    } else {
      assert (items + [l])[1..] == items[1..] + [l];
      SubtotalSnoc(items[1..], l);
    }
  }

  /** Two lines, 60 x 2 and 80 x 1: subtotal 200, total 260 without the coupon and 240 with it. */
  lemma TotalExample()
    ensures var items := [Line(1, "Soup", 60, 2, "", ""), Line(2, "Sticks", 80, 1, "", "")];
      Subtotal(items) == 200 && OrderTotal(items, false) == 260 && OrderTotal(items, true) == 240
  {
    var items := [Line(1, "Soup", 60, 2, "", ""), Line(2, "Sticks", 80, 1, "", "")];
    assert items[1..][1..] == [];
  }

  /** Spaces, tabs and line breaks around the code never change whether it is accepted. */
  lemma PromoIgnoresPadding(front: string, code: string, back: string)
    requires AllWhitespace(front) && AllWhitespace(back)
    ensures PromoMatches(front + code + back) == PromoMatches(code)
  {
    TrimIgnoresPadding(front, code, back);
  }

  /** A code without surrounding whitespace is accepted exactly when its upper-cased letters spell FREEUSE. */
  lemma PromoMatchesUnpadded(code: string)
    requires code != [] && !IsWhitespace(code[0]) && !IsWhitespace(code[|code| - 1])
    ensures Trim(code) == code
    ensures PromoMatches(code) <==> |code| == 7 && forall i :: 0 <= i < 7 ==> UpperChar(code[i]) == PromoWord[i]
  {
    assert TrimStart(code) == code;
    assert TrimEnd(code) == code;
  }

  /** "freeuse" is accepted with any whitespace around it, "  freeuse " among them: case and
      padding do not matter. */
  lemma PromoAcceptsPaddedLowerCase(front: string, back: string)
    requires AllWhitespace(front) && AllWhitespace(back)
    ensures PromoMatches(front + "freeuse" + back)
  {
    PromoAcceptsLowerCase();
    PromoIgnoresPadding(front, "freeuse", back);
  }

  lemma PromoAcceptsLowerCase()
    ensures PromoMatches("freeuse")
  {
    FreeuseUpper("freeuse");
    PromoMatchesUnpadded("freeuse");
  }

  lemma FreeuseUpper(word: string)
    requires word == "freeuse"
    ensures Upper(word) == PromoWord
  {
    var u := Upper(word);
    assert u[0] == 'F' && u[1] == 'R' && u[2] == 'E' && u[3] == 'E';
    assert u[4] == 'U' && u[5] == 'S' && u[6] == 'E';
  }

  /** "FREEUSE2" is refused: the code must be the whole text. */
  lemma PromoRejectsLonger()
    ensures !PromoMatches("FREEUSE2")
  {
    PromoMatchesUnpadded("FREEUSE2");
  }

  /** What Place Order hands to the review page. */
  datatype OrderPayload = OrderPayload(discount: int, promoCode: Option<string>)

  /** The category-card click: clicking the selected card clears the selection, any other card selects it. */
  function ToggleCategory(selected: Option<string>, clicked: string): (r: Option<string>)
    ensures r == None <==> selected == Some(clicked)
    ensures r != None ==> r == Some(clicked)
  {
    if selected == Some(clicked) then None else Some(clicked)
  }

  /** `filteredProducts`: nothing unless a category is selected (an empty name counts as none). */
  function CategoryProducts(catalogue: seq<Product>, selected: Option<string>): seq<Product> {
    if selected.None? || selected.value == "" then []
    else Filter(catalogue, (p: Product) => p.categoryCard == selected.value)
  }

  /** With nothing selected, or the falsy empty name, the list is empty; otherwise it is exactly the catalogue entries of the
      selected card, in catalogue order. */
  lemma CategoryProductsSpec(catalogue: seq<Product>, selected: Option<string>)
    ensures selected.None? || selected.value == "" ==> CategoryProducts(catalogue, selected) == []
    ensures selected.Some? && selected.value != "" ==>
      (forall p :: p in CategoryProducts(catalogue, selected) <==> p in catalogue && p.categoryCard == selected.value) &&
      IsSubsequence(CategoryProducts(catalogue, selected), catalogue)
  {
  }

  /** The Place Order button is disabled exactly when the cart has no lines. */
  function PlaceOrderDisabled(items: seq<Line>): (disabled: bool)
    ensures disabled <==> items == []
  {
    |items| == 0
  }

  /** The page's own state: the promo text field, the coupon flag and the selected category card. */
  class CheckoutPage {
    var promoCode: string
    var isCouponApplied: bool
    var selectedCategory: Option<string>

    constructor ()
      ensures promoCode == "" && !isCouponApplied && selectedCategory == None
    {
      promoCode := "";
      isCouponApplied := false;
      selectedCategory := None;
    }

    /** The promo input's onChange. */
    method EditPromoCode(text: string)
      modifies this
      ensures promoCode == text
      ensures isCouponApplied == old(isCouponApplied) && selectedCategory == old(selectedCategory)
    {
      promoCode := text;
    }

    /** handleApplyPromo: the flag becomes whether the current text is the code; an invalid code
        clears an earlier success, and applying twice changes nothing more. */
    method HandleApplyPromo()
      modifies this
      ensures isCouponApplied == PromoMatches(promoCode)
      ensures promoCode == old(promoCode) && selectedCategory == old(selectedCategory)
    {
      var code := promoCode;
      isCouponApplied := PromoMatches(code);
    }

    /** handlePlaceOrder's navigation state: the applied discount, and the code only when applied. */
    method HandlePlaceOrder() returns (payload: OrderPayload)
      ensures payload.discount == (if isCouponApplied then 20 else 0)
      ensures payload.promoCode.Some? <==> isCouponApplied
      ensures payload.promoCode.Some? ==> payload.promoCode.value == promoCode
    {
      payload := OrderPayload(AppliedDiscount(isCouponApplied), if isCouponApplied then Some(promoCode) else None);
    }

    /** A popular-category card's onClick. */
    method ClickCategoryCard(name: string)
      modifies this
      ensures selectedCategory == ToggleCategory(old(selectedCategory), name)
      ensures promoCode == old(promoCode) && isCouponApplied == old(isCouponApplied)
    {
      selectedCategory := if selectedCategory == Some(name) then None else Some(name);
    }

    /** The "See All" / "Clear Selection" button. */
    method ClearSelection()
      modifies this
      ensures selectedCategory == None
      ensures promoCode == old(promoCode) && isCouponApplied == old(isCouponApplied)
    {
      selectedCategory := None;
    }
  }
}
