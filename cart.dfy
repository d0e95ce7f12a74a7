/**
 * The cart store of src/contexts/CartContext.tsx: a list of line items and a counter
 * that the handlers adjust by deltas instead of recomputing it.
 *
 * The list updates inside the state setters (`find`, `map`, `filter`) are the functions
 * below; AddStep, UpdateStep and RemoveStep give the effect of one handler call on the
 * whole state, and CartStore's methods are proved to have exactly that effect.
 */
module Cart {
  import opened Wrappers
  import opened Catalogue
  import opened Events

  /** A cart line: the product fields copied at add time plus a quantity. */
  datatype Line = Line(id: int, name: string, price: int, quantity: int, image: string, weight: string)

  /** `cartItems` and `cartCount` together. */
  datatype CartState = CartState(items: seq<Line>, count: int)

  /** The line `{ ...product, quantity: 1 }` that a first add appends. */
  function NewLine(p: Product): Line {
    Line(p.id, p.name, p.price, 1, p.image, p.weight)
  }

  /** `items.find(item => item.id === id)`. */
  function FindLine(items: seq<Line>, id: int): (r: Option<Line>)
    ensures r.Some? ==> r.value in items && r.value.id == id
    ensures r.None? <==> forall l :: l in items ==> l.id != id
  {
    if items == [] then None
    else if items[0].id == id then Some(items[0])
    else FindLine(items[1..], id)
  }

  /** `item?.quantity || 0` for the line with this id. */
  function QuantityOf(items: seq<Line>, id: int): int {
    match FindLine(items, id)
    case Some(l) => l.quantity
    case None => 0
  }

  predicate UniqueIds(items: seq<Line>) {
    forall i, j :: 0 <= i < j < |items| ==> items[i].id != items[j].id
  }

  predicate AllPositive(items: seq<Line>) {
    forall l :: l in items ==> l.quantity >= 1
  }

  /** The sum of all quantities. */
  function Total(items: seq<Line>): int {
    if items == [] then 0 else items[0].quantity + Total(items[1..])
  }

  /** `items.reduce((sum, item) => sum + item.price * item.quantity, 0)`. */
  function Subtotal(items: seq<Line>): int {
    if items == [] then 0 else items[0].price * items[0].quantity + Subtotal(items[1..])
  }

  /** The state the design promises: the counter agrees with the lines, ids are unique, no line is empty. */
  predicate Consistent(s: CartState) {
    s.count == Total(s.items) && UniqueIds(s.items) && AllPositive(s.items)
  }

  /** The `map` of handleAddToCart: the line with this id gains one, every other line is kept. */
  function Bump(items: seq<Line>, id: int): (r: seq<Line>)
    ensures |r| == |items|
    ensures forall i :: 0 <= i < |items| ==>
      r[i] == if items[i].id == id then items[i].(quantity := items[i].quantity + 1) else items[i]
  {
    if items == [] then []
    else [if items[0].id == id then items[0].(quantity := items[0].quantity + 1) else items[0]] + Bump(items[1..], id)
  }

  /** The `map` of handleUpdateQuantity: the line with this id gets quantity q, every other line is kept. */
  function SetQuantity(items: seq<Line>, id: int, q: int): (r: seq<Line>)
    ensures |r| == |items|
    ensures forall i :: 0 <= i < |items| ==>
      r[i] == if items[i].id == id then items[i].(quantity := q) else items[i]
  {
    if items == [] then []
    else [if items[0].id == id then items[0].(quantity := q) else items[0]] + SetQuantity(items[1..], id, q)
  }

  /** The `filter` of handleRemoveItem: every line with another id, in order. */
  function Without(items: seq<Line>, id: int): (r: seq<Line>)
    ensures |r| <= |items|
  {
    if items == [] then []
    else if items[0].id != id then [items[0]] + Without(items[1..], id)
    else Without(items[1..], id)
  }

  /** The remove filter keeps exactly the lines with another id. */
  lemma {:induction false} WithoutMembers(items: seq<Line>, id: int)
    ensures forall l :: l in Without(items, id) <==> l in items && l.id != id
  {
    if items != [] {
      WithoutMembers(items[1..], id);
      assert items == [items[0]] + items[1..];
    }
  }

  /** handleAddToCart: bump an existing line or append a new one; the counter gains one either way. */
  function AddStep(s: CartState, p: Product): CartState {
    var items := if FindLine(s.items, p.id).Some? then Bump(s.items, p.id) else s.items + [NewLine(p)];
    CartState(items, s.count + 1)
  }

  /** handleRemoveItem: drop the line and subtract the quantity it had (0 when absent). */
  function RemoveStep(s: CartState, id: int): CartState {
    CartState(Without(s.items, id), s.count - QuantityOf(s.items, id))
  }

  /** handleUpdateQuantity, as written: q <= 0 removes; otherwise set the line and add q minus its old quantity (0 when absent). */
  function UpdateStep(s: CartState, id: int, q: int): CartState {
    if q <= 0 then RemoveStep(s, id)
    else CartState(SetQuantity(s.items, id, q), s.count + (q - QuantityOf(s.items, id)))
  }

  /** What a component's cart callback does to the store; other effects leave it alone. */
  function ApplyEffect(s: CartState, e: Effect): CartState {
    match e
    case AddToCart(p) => AddStep(s, p)
    case UpdateQuantity(id, q) => UpdateStep(s, id, q)
    case RemoveItem(id) => RemoveStep(s, id)
    case _ => s
  }

  /** A quantity request reaches the store as `updateQuantity`. */
  lemma ApplyUpdate(s: CartState, id: int, q: int)
    ensures ApplyEffect(s, UpdateQuantity(id, q)) == UpdateStep(s, id, q)
  {
  }

  function ApplyEffects(s: CartState, es: seq<Effect>): CartState
    decreases |es|
  {
    if es == [] then s else ApplyEffects(ApplyEffect(s, es[0]), es[1..])
  }

  /** `useCart`: the store when rendered inside a CartProvider, an error otherwise. */
  function UseCart(provided: Option<CartState>): (r: Result<CartState, string>)
    ensures r.Success? <==> provided.Some?
    ensures r.Success? ==> r.value == provided.value
    ensures r.Failure? ==> r.error == "useCart must be used within a CartProvider"
  {
    match provided
    case Some(s) => Success(s)
    case None => Failure("useCart must be used within a CartProvider")
  }

  // ---------------------------------------------------------------------------
  // Sums and list updates

  lemma {:induction false} TotalAppend(a: seq<Line>, b: seq<Line>)
    ensures Total(a + b) == Total(a) + Total(b)
  {
    if a == [] {
      assert a + b == b;
    } else {
      assert (a + b)[1..] == a[1..] + b;
      TotalAppend(a[1..], b);
    }
  }

  lemma UniqueTail(items: seq<Line>)
    requires items != [] && UniqueIds(items)
    ensures UniqueIds(items[1..])
    ensures forall l :: l in items[1..] ==> l.id != items[0].id
  {
    forall l | l in items[1..] ensures l.id != items[0].id {
      var k :| 0 <= k < |items[1..]| && items[1..][k] == l;
      assert items[k + 1] == l;
    }
  }

  lemma BumpAbsent(items: seq<Line>, id: int)
    requires FindLine(items, id).None?
    ensures Bump(items, id) == items
  {
    var r := Bump(items, id);
    forall i | 0 <= i < |items| ensures r[i] == items[i] {
      assert items[i] in items;
    }
  }

  lemma SetQuantityAbsent(items: seq<Line>, id: int, q: int)
    requires FindLine(items, id).None?
    ensures SetQuantity(items, id, q) == items
  {
    var r := SetQuantity(items, id, q);
    forall i | 0 <= i < |items| ensures r[i] == items[i] {
      assert items[i] in items;
    }
  }

  lemma {:induction false} WithoutAbsent(items: seq<Line>, id: int)
    requires FindLine(items, id).None?
    ensures Without(items, id) == items
  {
    if items != [] {
      assert items[0] in items;
      WithoutAbsent(items[1..], id);
    }
  }

  /** With unique ids, bumping a present line raises the quantity sum by exactly one. */
  lemma {:induction false} TotalBump(items: seq<Line>, id: int)
    requires UniqueIds(items) && FindLine(items, id).Some?
    ensures Total(Bump(items, id)) == Total(items) + 1
  {
    UniqueTail(items);
    var r := Bump(items, id);
    assert r[1..] == Bump(items[1..], id);
    if items[0].id == id {
      BumpAbsent(items[1..], id);
    } else {
      TotalBump(items[1..], id);
    }
  }

  /** With unique ids, setting a present line to q changes the quantity sum by q minus its old quantity. */
  lemma {:induction false} TotalSetQuantity(items: seq<Line>, id: int, q: int)
    requires UniqueIds(items) && FindLine(items, id).Some?
    ensures Total(SetQuantity(items, id, q)) == Total(items) - QuantityOf(items, id) + q
  {
    UniqueTail(items);
    var r := SetQuantity(items, id, q);
    assert r[1..] == SetQuantity(items[1..], id, q);
    if items[0].id == id {
      SetQuantityAbsent(items[1..], id, q);
    } else {
      TotalSetQuantity(items[1..], id, q);
    }
  }

  /** With unique ids, removing a line lowers the quantity sum by the quantity it had. */
  lemma {:induction false} TotalWithout(items: seq<Line>, id: int)
    requires UniqueIds(items)
    ensures Total(Without(items, id)) == Total(items) - QuantityOf(items, id)
  {
    if items != [] {
      UniqueTail(items);
      if items[0].id == id {
        WithoutAbsent(items[1..], id);
      } else {
        TotalWithout(items[1..], id);
      }
    }
  }

  /** Replacing the line at k changes the subtotal by the new line's amount less the old one's. */
  lemma {:induction false} SubtotalUpdate(items: seq<Line>, k: nat, l: Line)
    requires k < |items|
    ensures Subtotal(items[k := l]) == Subtotal(items) - items[k].price * items[k].quantity + l.price * l.quantity
    decreases k
  {
    if k > 0 {
      assert items[k := l][1..] == items[1..][k - 1 := l];
      SubtotalUpdate(items[1..], k - 1, l);
    }
  }

  /** A price over one more or one less unit. */
  lemma MulNext(price: int, q: int)
    ensures price * (q + 1) == price * q + price
    ensures price * (q - 1) == price * q - price
  {
  }

  /** With unique ids, removing a present line lowers the subtotal by that line's price times quantity. */
  lemma {:induction false} SubtotalWithout(items: seq<Line>, l: Line)
    requires UniqueIds(items) && l in items
    ensures Subtotal(Without(items, l.id)) == Subtotal(items) - l.price * l.quantity
  {
    UniqueTail(items);
    if items[0].id == l.id {
      assert items[0] == l;
      WithoutAbsent(items[1..], l.id);
    } else {
      assert l in items[1..];
      SubtotalWithout(items[1..], l);
    }
  }

  /** With unique ids, the line found for an id is the one at any index holding that id. */
  lemma {:induction false} FindLineAt(items: seq<Line>, k: nat)
    requires UniqueIds(items) && k < |items|
    ensures FindLine(items, items[k].id) == Some(items[k])
  {
    if k > 0 {
      UniqueTail(items);
      assert items[0].id != items[k].id;
      assert items[1..][k - 1] == items[k];
      FindLineAt(items[1..], k - 1);
    }
  }

  /** With unique ids, the remove filter takes out exactly the line at k and keeps the rest in order. */
  lemma {:induction false} WithoutAt(items: seq<Line>, k: nat)
    requires UniqueIds(items) && k < |items|
    ensures Without(items, items[k].id) == items[..k] + items[k + 1..]
  {
    UniqueTail(items);
    if k == 0 {
      WithoutAbsent(items[1..], items[0].id);
    } else {
      assert items[0].id != items[k].id;
      assert items[1..][k - 1] == items[k];
      WithoutAt(items[1..], k - 1);
      assert items[1..][..k - 1] + items[1..][k..] == items[1..k] + items[k + 1..];
      assert items[..k] == [items[0]] + items[1..k];
    }
  }

  lemma UniqueSameIds(a: seq<Line>, b: seq<Line>)
    requires UniqueIds(a) && |a| == |b|
    requires forall i :: 0 <= i < |a| ==> b[i].id == a[i].id
    ensures UniqueIds(b)
  {
  }

  lemma {:induction false} UniqueWithout(items: seq<Line>, id: int)
    requires UniqueIds(items)
    ensures UniqueIds(Without(items, id))
  {
    if items != [] {
      UniqueTail(items);
      UniqueWithout(items[1..], id);
      var rest := Without(items[1..], id);
      if items[0].id != id {
        var r := [items[0]] + rest;
        forall i, j | 0 <= i < j < |r| ensures r[i].id != r[j].id {
          if i == 0 {
            WithoutMembers(items[1..], id);
            assert r[j] in rest;
          } else {
            assert r[i] == rest[i - 1] && r[j] == rest[j - 1];
          }
        }
      }
    }
  }

  // ---------------------------------------------------------------------------
  // One handler call at a time

  /** Adding keeps the counter equal to the quantity sum, the ids unique and every quantity positive. */
  lemma AddKeepsConsistent(s: CartState, p: Product)
    requires Consistent(s)
    ensures Consistent(AddStep(s, p))
  {
    if FindLine(s.items, p.id).Some? {
      BumpKeepsConsistent(s, p.id);
    } else {
      AppendKeepsConsistent(s, p);
    }
  }

  lemma BumpKeepsConsistent(s: CartState, id: int)
    requires Consistent(s) && FindLine(s.items, id).Some?
    ensures Consistent(CartState(Bump(s.items, id), s.count + 1))
  {
    TotalBump(s.items, id);
    UniqueSameIds(s.items, Bump(s.items, id));
    PositiveBump(s.items, id);
  }

  lemma PositiveBump(items: seq<Line>, id: int)
    requires AllPositive(items)
    ensures AllPositive(Bump(items, id))
  {
    var r := Bump(items, id);
    forall l | l in r ensures l.quantity >= 1 {
      var i :| 0 <= i < |r| && r[i] == l;
      assert items[i] in items;
    }
  }

  lemma AppendKeepsConsistent(s: CartState, p: Product)
    requires Consistent(s) && FindLine(s.items, p.id).None?
    ensures Consistent(CartState(s.items + [NewLine(p)], s.count + 1))
  {
    var items := s.items + [NewLine(p)];
    TotalAppend(s.items, [NewLine(p)]);
    forall i, j | 0 <= i < j < |items| ensures items[i].id != items[j].id {
      if j == |s.items| {
        assert s.items[i] in s.items;
      }
    }
  }

  /** Adding an id already in the cart leaves one line for it, one more of it, its stored fields
      (price, name, image, weight) as they were, and every other line untouched. */
  lemma AddExisting(s: CartState, p: Product, k: nat)
    requires Consistent(s) && k < |s.items| && s.items[k].id == p.id
    ensures |AddStep(s, p).items| == |s.items|
    ensures AddStep(s, p).items[k] == s.items[k].(quantity := s.items[k].quantity + 1)
    ensures forall i :: 0 <= i < |s.items| && i != k ==> AddStep(s, p).items[i] == s.items[i]
    ensures AddStep(s, p).count == s.count + 1
  {
    assert s.items[k] in s.items;
  }

  /** Adding a new id appends its line, quantity 1 and the product's fields, at the end. */
  lemma AddNew(s: CartState, p: Product)
    requires Consistent(s) && forall l :: l in s.items ==> l.id != p.id
    ensures AddStep(s, p).items == s.items + [Line(p.id, p.name, p.price, 1, p.image, p.weight)]
    ensures AddStep(s, p).count == s.count + 1
    ensures Total(AddStep(s, p).items) == Total(s.items) + 1
  {
    TotalAppend(s.items, [NewLine(p)]);
  }

  /** Adding the same id twice to a cart without it gives one line with quantity 2, priced and named
      after the first product; the second product's fields are ignored. */
  lemma AddTwice(s: CartState, p: Product, again: Product)
    requires Consistent(s) && FindLine(s.items, p.id).None? && again.id == p.id
    ensures AddStep(AddStep(s, p), again).items == s.items + [NewLine(p).(quantity := 2)]
    ensures Consistent(AddStep(AddStep(s, p), again))
  {
    var mid := AddStep(s, p);
    assert mid == CartState(s.items + [NewLine(p)], s.count + 1);
    AddKeepsConsistent(s, p);
    AddKeepsConsistent(mid, again);
    assert FindLine(mid.items, p.id).Some? by {
      FindLineAt(mid.items, |s.items|);
    }
    BumpLast(s.items, NewLine(p));
  }

  /** Bumping the id of a last line whose id appears nowhere before adds one to that line only. */
  lemma BumpLast(items: seq<Line>, l: Line)
    requires FindLine(items, l.id).None?
    ensures Bump(items + [l], l.id) == items + [l.(quantity := l.quantity + 1)]
  {
    var r := Bump(items + [l], l.id);
    forall i | 0 <= i < |items| ensures r[i] == items[i] {
      assert items[i] in items;
      assert (items + [l])[i] == items[i];
    }
    assert r[|items|] == l.(quantity := l.quantity + 1);
  }

  /** Removing an absent id changes neither the lines nor the counter. */
  lemma RemoveAbsent(s: CartState, id: int)
    requires forall l :: l in s.items ==> l.id != id
    ensures RemoveStep(s, id) == s
  {
    WithoutAbsent(s.items, id);
  }

  /** Removing a present id drops exactly its line, keeps the others in order, lowers the counter
      by its quantity and keeps the store consistent. */
  lemma RemovePresent(s: CartState, k: nat)
    requires Consistent(s) && k < |s.items|
    ensures RemoveStep(s, s.items[k].id).items == s.items[..k] + s.items[k + 1..]
    ensures RemoveStep(s, s.items[k].id).count == s.count - s.items[k].quantity
    ensures Consistent(RemoveStep(s, s.items[k].id))
  {
    var id := s.items[k].id;
    WithoutAt(s.items, k);
    FindLineAt(s.items, k);
    TotalWithout(s.items, id);
    UniqueWithout(s.items, id);
  }

  /** Removal keeps the store consistent whether or not the id is present. */
  lemma RemoveKeepsConsistent(s: CartState, id: int)
    requires Consistent(s)
    ensures Consistent(RemoveStep(s, id))
    ensures FindLine(RemoveStep(s, id).items, id).None?
  {
    TotalWithout(s.items, id);
    UniqueWithout(s.items, id);
    WithoutMembers(s.items, id);
  }

  /** An update to zero or below is the removal of that id and leaves no line for it. */
  lemma UpdateNonPositiveRemoves(s: CartState, id: int, q: int)
    requires Consistent(s) && q <= 0
    ensures UpdateStep(s, id, q) == RemoveStep(s, id)
    ensures FindLine(UpdateStep(s, id, q).items, id).None?
    ensures Consistent(UpdateStep(s, id, q))
  {
    RemoveKeepsConsistent(s, id);
  }

  /** A positive update of a present id sets exactly that line's quantity, keeps order and every
      other line, moves the counter by the difference and keeps the store consistent. */
  lemma UpdatePresent(s: CartState, k: nat, q: int)
    requires Consistent(s) && k < |s.items| && q > 0
    ensures UpdateStep(s, s.items[k].id, q)
      == CartState(s.items[k := s.items[k].(quantity := q)], s.count + q - s.items[k].quantity)
    ensures Consistent(CartState(s.items[k := s.items[k].(quantity := q)], s.count + q - s.items[k].quantity))
  {
    var id := s.items[k].id;
    var updated := s.items[k := s.items[k].(quantity := q)];
    FindLineAt(s.items, k);
    TotalSetQuantity(s.items, id, q);
    SetQuantityAt(s.items, k, q);
    UniqueSameIds(s.items, updated);
    PositiveAfterReplace(s.items, k, s.items[k].(quantity := q));
  }

  lemma PositiveAfterReplace(items: seq<Line>, k: nat, l: Line)
    requires AllPositive(items) && k < |items| && l.quantity >= 1
    ensures AllPositive(items[k := l])
  {
    forall m | m in items[k := l] ensures m.quantity >= 1 {
      var i :| 0 <= i < |items| && items[k := l][i] == m;
      if i != k {
        assert items[i] in items;
      }
    }
  }

  /** With unique ids, setting the quantity of the id at k changes exactly index k. */
  lemma SetQuantityAt(items: seq<Line>, k: nat, q: int)
    requires UniqueIds(items) && k < |items|
    ensures SetQuantity(items, items[k].id, q) == items[k := items[k].(quantity := q)]
  {
    var r := SetQuantity(items, items[k].id, q);
    forall i | 0 <= i < |items| ensures r[i] == items[k := items[k].(quantity := q)][i] {
      if i != k {
        assert items[i].id != items[k].id;
      }
    }
  }

  /** The one path that breaks the counter: a positive update of an absent id leaves the lines
      as they are but raises the counter by q. */
  lemma UpdateAbsentBreaksCount(s: CartState, id: int, q: int)
    requires FindLine(s.items, id).None? && q > 0
    ensures UpdateStep(s, id, q).items == s.items
    ensures UpdateStep(s, id, q).count == s.count + q
    ensures Consistent(s) ==> !Consistent(UpdateStep(s, id, q))
  {
    SetQuantityAbsent(s.items, id, q);
  }

  /** A concrete instance: updating id 7 to 2 in an empty cart leaves no lines but a count of 2. */
  lemma UpdateAbsentExample()
    ensures UpdateStep(CartState([], 0), 7, 2) == CartState([], 2)
    ensures !Consistent(UpdateStep(CartState([], 0), 7, 2))
  {
    UpdateAbsentBreaksCount(CartState([], 0), 7, 2);
  }

  /** handleUpdateQuantity as the design intends it: an update of an absent id changes nothing. */
  function UpdateStepIntended(s: CartState, id: int, q: int): CartState {
    if q > 0 && FindLine(s.items, id).None? then s else UpdateStep(s, id, q)
  }

  /** The intended update keeps the store consistent for every id and quantity. */
  lemma UpdateIntendedKeepsConsistent(s: CartState, id: int, q: int)
    requires Consistent(s)
    ensures Consistent(UpdateStepIntended(s, id, q))
    ensures FindLine(s.items, id).None? ==> UpdateStepIntended(s, id, q).items == Without(s.items, id)
  {
    if FindLine(s.items, id).None? {
      WithoutAbsent(s.items, id);
      RemoveAbsent(s, id);
    } else if q <= 0 {
      RemoveKeepsConsistent(s, id);
    } else {
      var l := FindLine(s.items, id).value;
      var k :| 0 <= k < |s.items| && s.items[k] == l;
      UpdatePresent(s, k, q);
    }
  }

  /** Every cart callback keeps the store consistent, except a positive update of an absent id. */
  lemma ApplyEffectKeepsConsistent(s: CartState, e: Effect)
    requires Consistent(s)
    requires e.UpdateQuantity? && e.quantity > 0 ==> FindLine(s.items, e.id).Some?
    ensures Consistent(ApplyEffect(s, e))
  {
    match e {
      case AddToCart(p) => AddKeepsConsistent(s, p);
      case RemoveItem(id) => RemoveKeepsConsistent(s, id);
      case UpdateQuantity(id, q) =>
        if q <= 0 {
          RemoveKeepsConsistent(s, id);
        } else {
          var l := FindLine(s.items, id).value;
          var k :| 0 <= k < |s.items| && s.items[k] == l;
          UpdatePresent(s, k, q);
        }
      case _ =>
    }
  }

  // ---------------------------------------------------------------------------
  // The provider's state

  /** CartProvider's `cartItems` and `cartCount` state, one handler call at a time. */
  class CartStore {
    var items: seq<Line>
    var count: int

    function State(): CartState
      reads this
    {
      CartState(items, count)
    }

    /** `useState([])` and `useState(0)`. */
    constructor ()
      ensures items == [] && count == 0
      ensures Consistent(State())
    {
      items := [];
      count := 0;
    }

    method HandleAddToCart(p: Product)
      modifies this
      ensures State() == AddStep(old(State()), p)
      ensures old(Consistent(State())) ==> Consistent(State())
    {
      ghost var before := State();
      var existing := FindLine(items, p.id);
      if existing.Some? {
        items := Bump(items, p.id);
      } else {
        items := items + [NewLine(p)];
      }
      count := count + 1;
      assert State() == AddStep(before, p);
      if Consistent(before) {
        AddKeepsConsistent(before, p);
      }
    }

    method HandleRemoveItem(id: int)
      modifies this
      ensures State() == RemoveStep(old(State()), id)
      ensures old(Consistent(State())) ==> Consistent(State())
    {
      ghost var before := State();
      // `cartItems` as the closure sees it: the current state, since calls run one at a time
      var item := FindLine(items, id);
      count := count - (if item.Some? then item.value.quantity else 0);
      items := Without(items, id);
      if Consistent(before) {
        RemoveKeepsConsistent(before, id);
      }
    }

    method HandleUpdateQuantity(id: int, quantity: int)
      modifies this
      ensures State() == UpdateStep(old(State()), id, quantity)
      ensures old(Consistent(State())) && (quantity <= 0 || old(FindLine(items, id)).Some?) ==> Consistent(State())
      ensures quantity > 0 && old(FindLine(items, id)).None? ==> items == old(items) && count == old(count) + quantity
    {
      if quantity <= 0 {
        HandleRemoveItem(id);
        return;
      }
      ghost var before := State();
      var rendered := items;
      items := SetQuantity(items, id, quantity);
      var item := FindLine(rendered, id);
      var diff := quantity - (if item.Some? then item.value.quantity else 0);
      count := count + diff;
      assert State() == UpdateStep(before, id, quantity);
      if FindLine(before.items, id).None? {
        UpdateAbsentBreaksCount(before, id, quantity);
      } else if Consistent(before) {
        ApplyEffectKeepsConsistent(before, UpdateQuantity(id, quantity));
      }
    }
  }
}
