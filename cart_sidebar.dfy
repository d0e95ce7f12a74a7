/**
 * The cart drawer (src/components/ui/CartSideBar.tsx): one row per line with minus, plus and
 * remove buttons, a footer with the total, and the way to checkout.
 */
module CartSideBar {
  import opened Events
  import opened Cart

  /** `item.price * item.quantity`, the amount on each row. */
  function LineTotal(l: Line): int {
    l.price * l.quantity
  }

  function MinusRequest(l: Line): Effect {
    UpdateQuantity(l.id, l.quantity - 1)
  }

  function PlusRequest(l: Line): Effect {
    UpdateQuantity(l.id, l.quantity + 1)
  }

  function RemoveRequest(l: Line): Effect {
    RemoveItem(l.id)
  }

  /** The footer with the total and the checkout button is there only while the cart has lines. */
  function FooterVisible(items: seq<Line>): (visible: bool)
    ensures visible <==> items != []
  {
    |items| > 0
  }

  /** handleProceedToCheckout: close the drawer, then go to the checkout page. */
  function ProceedToCheckout(): seq<Effect> {
    [Close, Navigate("/checkout")]
  }

  /** Plus adds one of the line: the total price rises by its price, the count by one, and no line
      appears or disappears. */
  lemma PlusRaisesTotals(s: CartState, k: nat)
    requires Consistent(s) && k < |s.items|
    ensures var r := ApplyEffect(s, PlusRequest(s.items[k]));
      && Consistent(r)
      && r.items == s.items[k := s.items[k].(quantity := s.items[k].quantity + 1)]
      && Subtotal(r.items) == Subtotal(s.items) + s.items[k].price
      && r.count == s.count + 1
  {
    ApplyUpdate(s, s.items[k].id, s.items[k].quantity + 1);
    PlusKeepsLines(s, k);
    SubtotalOneMore(s.items, k);
  }

  lemma PlusKeepsLines(s: CartState, k: nat)
    requires Consistent(s) && k < |s.items|
    ensures var r := UpdateStep(s, s.items[k].id, s.items[k].quantity + 1);
      && Consistent(r)
      && r.items == s.items[k := s.items[k].(quantity := s.items[k].quantity + 1)]
      && r.count == s.count + 1
  {
    UpdatePresent(s, k, s.items[k].quantity + 1);
  }

  lemma SubtotalOneMore(items: seq<Line>, k: nat)
    requires k < |items|
    ensures Subtotal(items[k := items[k].(quantity := items[k].quantity + 1)]) == Subtotal(items) + items[k].price
  {
    SubtotalUpdate(items, k, items[k].(quantity := items[k].quantity + 1));
    MulNext(items[k].price, items[k].quantity);
  }

  /** Minus takes one away: the total price falls by the line's price and the count by one; at
      quantity 1 the line leaves the cart, above it the line stays. */
  lemma MinusLowersTotals(s: CartState, k: nat)
    requires Consistent(s) && k < |s.items|
    ensures var r := ApplyEffect(s, MinusRequest(s.items[k]));
      && Consistent(r)
      && Subtotal(r.items) == Subtotal(s.items) - s.items[k].price
      && r.count == s.count - 1
      && (FindLine(r.items, s.items[k].id).None? <==> s.items[k].quantity == 1)
  {
    ApplyUpdate(s, s.items[k].id, s.items[k].quantity - 1);
    if s.items[k].quantity == 1 {
      MinusLast(s, k);
    } else {
      MinusFewer(s, k);
    }
  }

  /** At quantity 1, minus removes the line. */
  lemma MinusLast(s: CartState, k: nat)
    requires Consistent(s) && k < |s.items| && s.items[k].quantity == 1
    ensures var r := UpdateStep(s, s.items[k].id, 0);
      && Consistent(r)
      && Subtotal(r.items) == Subtotal(s.items) - s.items[k].price
      && r.count == s.count - 1
      && FindLine(r.items, s.items[k].id).None?
  {
    var l := s.items[k];
    UpdateNonPositiveRemoves(s, l.id, 0);
    RemovePresent(s, k);
    SubtotalWithout(s.items, l);
  }

  /** Above quantity 1, minus keeps the line with one unit less. */
  lemma MinusFewer(s: CartState, k: nat)
    requires Consistent(s) && k < |s.items| && s.items[k].quantity > 1
    ensures var r := UpdateStep(s, s.items[k].id, s.items[k].quantity - 1);
      && Consistent(r)
      && Subtotal(r.items) == Subtotal(s.items) - s.items[k].price
      && r.count == s.count - 1
      && FindLine(r.items, s.items[k].id).Some?
  {
    var l := s.items[k];
    UpdatePresent(s, k, l.quantity - 1);
    SubtotalUpdate(s.items, k, l.(quantity := l.quantity - 1));
    MulNext(l.price, l.quantity);
    var updated := s.items[k := l.(quantity := l.quantity - 1)];
    assert updated[k].id == l.id && updated[k] in updated;
  }

  /** Remove takes the whole line away with all its quantity. */
  lemma RemoveDropsRow(s: CartState, k: nat)
    requires Consistent(s) && k < |s.items|
    ensures var r := ApplyEffect(s, RemoveRequest(s.items[k]));
      && Consistent(r)
      && r.items == s.items[..k] + s.items[k + 1..]
      && Subtotal(r.items) == Subtotal(s.items) - LineTotal(s.items[k])
      && r.count == s.count - s.items[k].quantity
  {
    RemovePresent(s, k);
    SubtotalWithout(s.items, s.items[k]);
  }
}
