/**
 * The "added to cart" toast (src/components/ui/CartToast.tsx). Its buttons reach the store only
 * through the callbacks it is given, so each handler is the list of callbacks it fires, in order.
 */
module CartToast {
  import opened Events
  import opened Cart

  /** handleQuantityChange: a positive quantity is forwarded and restarts the auto-hide timer;
      anything else does nothing. */
  function HandleQuantityChange(itemId: int, newQuantity: int): seq<Effect> {
    if newQuantity > 0 then [UpdateQuantity(itemId, newQuantity), ResetTimer] else []
  }

  /** handleDelete: remove the line, then close the toast. */
  function HandleDelete(itemId: int): seq<Effect> {
    [RemoveItem(itemId), Close]
  }

  /** The minus button is disabled at quantity 1 or below. */
  predicate MinusDisabled(currentQuantity: int) {
    currentQuantity <= 1
  }

  /** A click on the minus button: nothing when it is disabled. */
  function MinusPress(itemId: int, currentQuantity: int): seq<Effect> {
    if MinusDisabled(currentQuantity) then [] else HandleQuantityChange(itemId, currentQuantity - 1)
  }

  function PlusPress(itemId: int, currentQuantity: int): seq<Effect> {
    HandleQuantityChange(itemId, currentQuantity + 1)
  }

  /** The amount shown under the name: price times the current quantity; nothing renders while hidden. */
  function DisplayedAmount(isVisible: bool, itemPrice: int, currentQuantity: int): (shown: Wrappers.Option<int>)
    ensures shown.Some? <==> isVisible
    ensures shown.Some? && currentQuantity == 0 ==> shown.value == 0
  {
    if !isVisible then Wrappers.None else Wrappers.Some(itemPrice * currentQuantity)
  }

  /** The disabled minus button and the handler's own guard agree: the minus button forwards a
      change exactly when it is enabled, and then asks for one less. */
  lemma MinusEnabledIffForwarded(itemId: int, currentQuantity: int)
    ensures !MinusDisabled(currentQuantity) <==> MinusPress(itemId, currentQuantity) != []
    ensures !MinusDisabled(currentQuantity) <==> HandleQuantityChange(itemId, currentQuantity - 1) != []
    ensures MinusPress(itemId, currentQuantity) != [] ==>
      MinusPress(itemId, currentQuantity)[0] == UpdateQuantity(itemId, currentQuantity - 1)
  {
  }

  /** The toast's quantity buttons never take a line out of the cart: on a line that is there they
      set its quantity and keep the store consistent. */
  lemma QuantityChangeKeepsLine(s: CartState, k: nat, newQuantity: int)
    requires Consistent(s) && k < |s.items|
    ensures var r := ApplyEffects(s, HandleQuantityChange(s.items[k].id, newQuantity));
      && Consistent(r)
      && |r.items| == |s.items|
      && (newQuantity <= 0 ==> r == s)
      && (newQuantity > 0 ==> r.items == s.items[k := s.items[k].(quantity := newQuantity)])
      && (newQuantity > 0 ==> r.count == s.count + newQuantity - s.items[k].quantity)
  {
    var id := s.items[k].id;
    if newQuantity > 0 {
      var es := HandleQuantityChange(id, newQuantity);
      UpdatePresent(s, k, newQuantity);
      var s1 := ApplyEffect(s, es[0]);
      assert ApplyEffects(s, es) == ApplyEffects(s1, es[1..]);
      assert es[1..] == [ResetTimer];
      assert ApplyEffects(s1, [ResetTimer]) == ApplyEffects(s1, []);
    }
  }

  /** Delete takes the line out, keeps the store consistent and closes the toast last. */
  lemma DeleteRemovesLine(s: CartState, itemId: int)
    requires Consistent(s)
    ensures ApplyEffects(s, HandleDelete(itemId)) == RemoveStep(s, itemId)
    ensures FindLine(ApplyEffects(s, HandleDelete(itemId)).items, itemId).None?
    ensures Consistent(ApplyEffects(s, HandleDelete(itemId)))
    ensures HandleDelete(itemId)[|HandleDelete(itemId)| - 1] == Close
  {
    var es := HandleDelete(itemId);
    var s1 := ApplyEffect(s, es[0]);
    assert ApplyEffects(s, es) == ApplyEffects(s1, es[1..]);
    assert es[1..] == [Close];
    assert ApplyEffects(s1, [Close]) == ApplyEffects(s1, []);
    RemoveKeepsConsistent(s, itemId);
  }

  /** A plus press on a toast whose line is no longer in the cart leaves the lines alone but still
      raises the count by the requested quantity. */
  lemma PlusOnMissingLineDrifts(s: CartState, itemId: int, currentQuantity: nat)
    requires FindLine(s.items, itemId).None?
    ensures ApplyEffects(s, PlusPress(itemId, currentQuantity)).items == s.items
    ensures ApplyEffects(s, PlusPress(itemId, currentQuantity)).count == s.count + currentQuantity + 1
    ensures Consistent(s) ==> !Consistent(ApplyEffects(s, PlusPress(itemId, currentQuantity)))
  {
    var es := PlusPress(itemId, currentQuantity);
    UpdateAbsentBreaksCount(s, itemId, currentQuantity + 1);
    var s1 := ApplyEffect(s, es[0]);
    assert ApplyEffects(s, es) == ApplyEffects(s1, es[1..]);
    assert es[1..] == [ResetTimer];
    assert ApplyEffects(s1, [ResetTimer]) == ApplyEffects(s1, []);
  }
}
