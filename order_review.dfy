/**
 * The order review page (src/Pages/Checkout/OrderReview.tsx): figures taken from the navigation
 * state when it carries them, recomputed from the cart otherwise.
 *
 * JavaScript's `x || d` on a number falls back on both a missing value and 0 (OrElse);
 * `x ?? d` falls back only on a missing value (Coalesce). An array is never falsy.
 */
module OrderReview {
  import opened Wrappers
  import opened Cart
  import Checkout

  /** The navigation state fields the page reads, each possibly absent. */
  datatype ReviewState = ReviewState(
    cartItems: Option<seq<Line>>,
    subtotal: Option<int>,
    deliveryCharge: Option<int>,
    discount: Option<int>,
    total: Option<int>,
    cartCount: Option<int>)

  /** `v || fallback` for a number. */
  function OrElse(v: Option<int>, fallback: int): int {
    if v.Some? && v.value != 0 then v.value else fallback
  }

  /** `v ?? fallback`. */
  function Coalesce(v: Option<int>, fallback: int): int {
    if v.Some? then v.value else fallback
  }

  /** The navigation state Checkout's Place Order produces: only the discount is a field the page reads. */
  function FromCheckout(payload: Checkout.OrderPayload): ReviewState {
    ReviewState(None, None, None, Some(payload.discount), None, None)
  }

  /** `state?.cartItems || contextCartItems`: any array from the state wins, even an empty one. */
  function EffectiveItems(state: Option<ReviewState>, contextItems: seq<Line>): seq<Line> {
    if state.Some? && state.value.cartItems.Some? then state.value.cartItems.value else contextItems
  }

  /** `state?.cartCount || contextCartCount`. */
  function EffectiveCount(state: Option<ReviewState>, contextCount: int): int {
    OrElse(if state.Some? then state.value.cartCount else None, contextCount)
  }

  function ReviewSubtotal(state: Option<ReviewState>, contextItems: seq<Line>): int {
    OrElse(if state.Some? then state.value.subtotal else None, Subtotal(EffectiveItems(state, contextItems)))
  }

  function ReviewDelivery(state: Option<ReviewState>): int {
    OrElse(if state.Some? then state.value.deliveryCharge else None, 60)
  }

  function ReviewDiscount(state: Option<ReviewState>): int {
    Coalesce(if state.Some? then state.value.discount else None, 0)
  }

  function ReviewTotal(state: Option<ReviewState>, contextItems: seq<Line>): int {
    OrElse(if state.Some? then state.value.total else None,
      ReviewSubtotal(state, contextItems) + ReviewDelivery(state) - ReviewDiscount(state))
  }

  /** The redirect effect: leave for the home page when there is nothing to review. */
  predicate RedirectsHome(state: Option<ReviewState>, contextItems: seq<Line>) {
    |EffectiveItems(state, contextItems)| == 0
  }

  /** The "item"/"items" label: the "s" appears unless there is exactly one line. */
  function ItemsSuffix(lines: nat): (suffix: string)
    ensures suffix == "" <==> lines == 1
    ensures suffix != "" ==> suffix == "s"
  {
    if lines != 1 then "s" else ""
  }

  /** Coming from Checkout, the review shows the checkout's figures for the same cart. */
  lemma ReviewMatchesCheckout(items: seq<Line>, isCouponApplied: bool, promoCode: Option<string>)
    ensures var state := Some(FromCheckout(Checkout.OrderPayload(Checkout.AppliedDiscount(isCouponApplied), promoCode)));
      && EffectiveItems(state, items) == items
      && ReviewSubtotal(state, items) == Subtotal(items)
      && ReviewDelivery(state) == Checkout.DeliveryCharge
      && ReviewDiscount(state) == Checkout.AppliedDiscount(isCouponApplied)
      && ReviewTotal(state, items) == Checkout.OrderTotal(items, isCouponApplied)
  {
  }

  /** A passed figure is used when it is non-zero; a passed 0 counts as missing for subtotal,
      delivery charge and total, so a free delivery passed as 0 still shows 60. */
  lemma ZeroFiguresFallBack(st: ReviewState, contextItems: seq<Line>)
    ensures ReviewSubtotal(Some(st.(subtotal := Some(0))), contextItems) == ReviewSubtotal(Some(st.(subtotal := None)), contextItems)
    ensures ReviewDelivery(Some(st.(deliveryCharge := Some(0)))) == 60
    ensures ReviewTotal(Some(st.(total := Some(0))), contextItems) == ReviewTotal(Some(st.(total := None)), contextItems)
    ensures forall v :: v != 0 ==> ReviewSubtotal(Some(st.(subtotal := Some(v))), contextItems) == v
    ensures forall v :: v != 0 ==> ReviewDelivery(Some(st.(deliveryCharge := Some(v)))) == v
    ensures forall v :: v != 0 ==> ReviewTotal(Some(st.(total := Some(v))), contextItems) == v
  {
  }

  /** An explicit discount of 0 is kept and a missing one becomes 0; with a fallback of 0 the
      `||` form would give the same value for every input. */
  lemma DiscountFallback(state: Option<ReviewState>)
    ensures state.Some? && state.value.discount.Some? ==> ReviewDiscount(state) == state.value.discount.value
    ensures state.None? || state.value.discount.None? ==> ReviewDiscount(state) == 0
    ensures ReviewDiscount(state) == OrElse(if state.Some? then state.value.discount else None, 0)
  {
  }

  /** The lines come from the navigation state whenever it has any array, even an empty one, so an
      empty array there sends the page home although the cart itself has lines. */
  lemma StateItemsWin(st: ReviewState, xs: seq<Line>, contextItems: seq<Line>)
    ensures EffectiveItems(Some(st.(cartItems := Some(xs))), contextItems) == xs
    ensures EffectiveItems(Some(st.(cartItems := None)), contextItems) == contextItems
    ensures EffectiveItems(None, contextItems) == contextItems
    ensures RedirectsHome(Some(st.(cartItems := Some([]))), contextItems)
    ensures RedirectsHome(None, contextItems) <==> contextItems == []
  {
  }

  /** The count shown comes from the state when it is there and non-zero, from the cart otherwise. */
  lemma CountFallback(state: Option<ReviewState>, contextCount: int)
    ensures state.Some? && state.value.cartCount.Some? && state.value.cartCount.value != 0 ==>
      EffectiveCount(state, contextCount) == state.value.cartCount.value
    ensures state.None? || state.value.cartCount.None? || state.value.cartCount.value == 0 ==>
      EffectiveCount(state, contextCount) == contextCount
  {
  }
}
