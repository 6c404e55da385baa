/** Line items of the shopping cart and the pure computations the cart store
    performs on them: the existing-item lookup and local reconciliation of the
    add path, and the two `reduce` folds (total price and item count). */
module CartItems {

  datatype Option<+T> = None | Some(value: T)

  type ProductId = int

  /** The product snapshot a line item carries. Prices are whole cents; a
      snapshot synthesised locally by the add path holds only the id, so its
      price is absent. */
  datatype Product = Product(id: ProductId, price: Option<int>)

  datatype LineItem = LineItem(product: Product, quantity: int)

  /** The cart object `{ items: [...] }`. */
  datatype Cart = Cart(items: seq<LineItem>)

  const EmptyCart: Cart := Cart([])

  /** At most one line item per product id. */
  ghost predicate UniqueIds(items: seq<LineItem>) {
    forall i, j :: 0 <= i < j < |items| ==> items[i].product.id != items[j].product.id
  }

  // ---------------------------------------------------------------------------
  // The add path
  // ---------------------------------------------------------------------------

  /** `items.find(item => item.product.id === productId)`, as the index of the
      first match. */
  function Find(items: seq<LineItem>, productId: ProductId): (r: Option<nat>)
    ensures r.Some? ==> r.value < |items| && items[r.value].product.id == productId
    ensures r.Some? ==> forall j :: 0 <= j < r.value ==> items[j].product.id != productId
    ensures r.None? <==> forall j :: 0 <= j < |items| ==> items[j].product.id != productId
  {
    if items == [] then None
    else if items[0].product.id == productId then Some(0)
    else match Find(items[1..], productId)
      case None => None
      case Some(k) => Some(k + 1)
  }

  /** The callback given to `items.map` on the existing-item path. */
  function Bumped(item: LineItem, productId: ProductId, quantity: int): LineItem {
    if item.product.id == productId then item.(quantity := item.quantity + quantity) else item
  }

  /** `items.map(...)`: every line item for `productId` gains `quantity`. */
  function BumpQuantity(items: seq<LineItem>, productId: ProductId, quantity: int): (r: seq<LineItem>)
    ensures |r| == |items|
    ensures forall j :: 0 <= j < |r| ==> r[j].product == items[j].product
    ensures forall j :: 0 <= j < |r| ==>
      r[j].quantity == items[j].quantity + (if items[j].product.id == productId then quantity else 0)
  {
    seq(|items|, j requires 0 <= j < |items| => Bumped(items[j], productId, quantity))
  }

  /** The partial line item appended for a product not yet in the cart. */
  function PartialItem(productId: ProductId, quantity: int): LineItem {
    LineItem(Product(productId, None), quantity)
  }

  /** The local update `addToCart` applies after the server accepted the add. */
  function AddLocal(items: seq<LineItem>, productId: ProductId, quantity: int): seq<LineItem> {
    if Find(items, productId).Some? then BumpQuantity(items, productId, quantity)
    else items + [PartialItem(productId, quantity)]
  }

  /** A product already in a cart with unique ids: exactly that item's quantity
      grows by `quantity`; every other item, the order and the length stay. */
  lemma AddExisting(items: seq<LineItem>, productId: ProductId, quantity: int, i: nat)
    requires UniqueIds(items) && i < |items| && items[i].product.id == productId
    ensures AddLocal(items, productId, quantity)
         == items[..i] + [items[i].(quantity := items[i].quantity + quantity)] + items[i + 1..]
  {
    var r := AddLocal(items, productId, quantity);
    var expected := items[..i] + [items[i].(quantity := items[i].quantity + quantity)] + items[i + 1..];
    assert Find(items, productId).Some?;
    assert |r| == |expected|;
    forall j | 0 <= j < |r| ensures r[j] == expected[j] {
      if j < i {
        assert items[j].product.id != productId;
      } else if j > i {
        assert items[j].product.id != productId;
      }
    }
  }

  /** A product not in the cart: one partial item is appended at the end. */
  lemma AddNew(items: seq<LineItem>, productId: ProductId, quantity: int)
    requires forall j :: 0 <= j < |items| ==> items[j].product.id != productId
    ensures AddLocal(items, productId, quantity) == items + [LineItem(Product(productId, None), quantity)]
    ensures |AddLocal(items, productId, quantity)| == |items| + 1
  {
  }

  /** The add path keeps at most one line item per product id. */
  lemma AddLocalKeepsUnique(items: seq<LineItem>, productId: ProductId, quantity: int)
    requires UniqueIds(items)
    ensures UniqueIds(AddLocal(items, productId, quantity))
  {
    var r := AddLocal(items, productId, quantity);
    if Find(items, productId).None? {
      forall i, j | 0 <= i < j < |r| ensures r[i].product.id != r[j].product.id {
        if j == |items| {
          assert r[j].product.id == productId;
        }
      }
    }
  }

  // ---------------------------------------------------------------------------
  // getCartItemCount: items.reduce((count, item) => count + item.quantity, 0)
  // ---------------------------------------------------------------------------

  /** The item count, folded left to right as `reduce` does. */
  function ItemCount(items: seq<LineItem>): int {
    if items == [] then 0
    else ItemCount(items[..|items| - 1]) + items[|items| - 1].quantity
  }

  lemma {:induction false} ItemCountAppend(a: seq<LineItem>, b: seq<LineItem>)
    ensures ItemCount(a + b) == ItemCount(a) + ItemCount(b)
  {
    if b == [] {
      assert a + b == a;
    } else {
      var b' := b[..|b| - 1];
      assert (a + b)[..|a + b| - 1] == a + b';
      ItemCountAppend(a, b');
    }
  }

  lemma ItemCountAround(pre: seq<LineItem>, x: LineItem, post: seq<LineItem>)
    ensures ItemCount(pre + [x] + post) == ItemCount(pre) + x.quantity + ItemCount(post)
  {
    ItemCountAppend(pre + [x], post);
    ItemCountAppend(pre, [x]);
    assert ([] + [x])[..0] == [];
  }

  /** Finds in `b` the last element of `a`, for a pair of permutations. */
  lemma PickMatch(a: seq<LineItem>, b: seq<LineItem>) returns (i: nat)
    requires a != [] && multiset(a) == multiset(b)
    ensures i < |b| && b[i] == a[|a| - 1]
    ensures b == b[..i] + [b[i]] + b[i + 1..]
    ensures multiset(a[..|a| - 1]) == multiset(b[..i] + b[i + 1..])
  {
    var x := a[|a| - 1];
    var a' := a[..|a| - 1];
    assert a == a' + [x];
    assert x in multiset(b);
    i :| 0 <= i < |b| && b[i] == x;
    var b' := b[..i] + b[i + 1..];
    assert b == b[..i] + [x] + b[i + 1..];
    assert multiset(b) == multiset(b[..i]) + multiset{x} + multiset(b[i + 1..]);
    assert multiset(b') == multiset(b[..i]) + multiset(b[i + 1..]);
    assert multiset(a) == multiset(a') + multiset{x};
    assert multiset(a') == multiset(a) - multiset{x};
    assert multiset(b') == multiset(b) - multiset{x};
  }

  /** The item count does not depend on the order of the line items. */
  lemma {:induction false} ItemCountPermutation(a: seq<LineItem>, b: seq<LineItem>)
    requires multiset(a) == multiset(b)
    ensures ItemCount(a) == ItemCount(b)
    decreases |a|
  {
    if a == [] {
      assert |b| == |multiset(b)| == 0;
    } else {
      var i := PickMatch(a, b);
      var pre, post := b[..i], b[i + 1..];
      ItemCountPermutation(a[..|a| - 1], pre + post);
      ItemCountAround(pre, b[i], post);
      ItemCountAppend(pre, post);
    }
  }

  // ---------------------------------------------------------------------------
  // getCartTotal: items.reduce((total, item) => total + price * quantity, 0)
  // ---------------------------------------------------------------------------

  /** JavaScript number addition where `None` stands for NaN: NaN absorbs. */
  function Plus(a: Option<int>, b: Option<int>): Option<int> {
    if a.Some? && b.Some? then Some(a.value + b.value) else None
  }

  /** `item.product.price * item.quantity`; NaN when the snapshot has no price. */
  function LineValue(item: LineItem): Option<int> {
    match item.product.price
    case Some(p) => Some(p * item.quantity)
    case None => None
  }

  /** The cart total, folded left to right as `reduce` does; `None` is NaN. */
  function Total(items: seq<LineItem>): Option<int> {
    if items == [] then Some(0)
    else Plus(Total(items[..|items| - 1]), LineValue(items[|items| - 1]))
  }

  /** Every line item carries a price. */
  ghost predicate AllPriced(items: seq<LineItem>) {
    forall j :: 0 <= j < |items| ==> items[j].product.price.Some?
  }

  lemma {:induction false} TotalAppend(a: seq<LineItem>, b: seq<LineItem>)
    ensures Total(a + b) == Plus(Total(a), Total(b))
  {
    if b == [] {
      assert a + b == a;
    } else {
      var b' := b[..|b| - 1];
      assert (a + b)[..|a + b| - 1] == a + b';
      TotalAppend(a, b');
    }
  }

  lemma TotalAround(pre: seq<LineItem>, x: LineItem, post: seq<LineItem>)
    ensures Total(pre + [x] + post) == Plus(Plus(Total(pre), LineValue(x)), Total(post))
  {
    TotalAppend(pre + [x], post);
    TotalAppend(pre, [x]);
    assert ([] + [x])[..0] == [];
  }

  /** The total is a number exactly when every line item has a price. */
  lemma {:induction false} TotalDefined(items: seq<LineItem>)
    ensures Total(items).Some? <==> AllPriced(items)
  {
    if items != [] {
      var items' := items[..|items| - 1];
      TotalDefined(items');
      assert AllPriced(items) ==> AllPriced(items');
      if AllPriced(items') && !AllPriced(items) {
        assert items[|items| - 1].product.price.None?;
      }
    }
  }

  /** The total does not depend on the order of the line items. */
  lemma {:induction false} TotalPermutation(a: seq<LineItem>, b: seq<LineItem>)
    requires multiset(a) == multiset(b)
    ensures Total(a) == Total(b)
    decreases |a|
  {
    if a == [] {
      assert |b| == |multiset(b)| == 0;
    } else {
      var i := PickMatch(a, b);
      var pre, post := b[..i], b[i + 1..];
      TotalPermutation(a[..|a| - 1], pre + post);
      TotalAround(pre, b[i], post);
      TotalAppend(pre, post);
      assert Plus(Plus(Total(pre), LineValue(b[i])), Total(post))
          == Plus(Plus(Total(pre), Total(post)), LineValue(b[i]));
    }
  }

  // ---------------------------------------------------------------------------
  // The aggregates across the add path
  // ---------------------------------------------------------------------------

  /** A successful add raises the item count by the added quantity. */
  lemma AddLocalItemCount(items: seq<LineItem>, productId: ProductId, quantity: int)
    requires UniqueIds(items)
    ensures ItemCount(AddLocal(items, productId, quantity)) == ItemCount(items) + quantity
  {
    match Find(items, productId)
    case None =>
      ItemCountAppend(items, [PartialItem(productId, quantity)]);
      assert ([] + [PartialItem(productId, quantity)])[..0] == [];
    case Some(i) =>
      var bumped := items[i].(quantity := items[i].quantity + quantity);
      AddExisting(items, productId, quantity, i);
      assert items == items[..i] + [items[i]] + items[i + 1..];
      ItemCountAround(items[..i], bumped, items[i + 1..]);
      ItemCountAround(items[..i], items[i], items[i + 1..]);
  }

  lemma AddExistingParts(items: seq<LineItem>, productId: ProductId, quantity: int, i: nat)
    requires UniqueIds(items) && i < |items| && items[i].product.id == productId
    ensures var r := AddLocal(items, productId, quantity);
      |r| == |items| && r[..i] == items[..i] && r[i + 1..] == items[i + 1..]
      && r[i] == items[i].(quantity := items[i].quantity + quantity)
  {
    AddExisting(items, productId, quantity, i);
  }

  /** A list of lines split around its `i`-th line; stated apart so that the
      proofs about totals need not rebuild it next to the fold's definition. */
  lemma SplitAt(s: seq<LineItem>, i: nat)
    requires i < |s|
    ensures s == s[..i] + [s[i]] + s[i + 1..]
  {
    assert s == s[..i] + s[i..];
  }

  lemma TotalAt(s: seq<LineItem>, i: nat)
    requires i < |s|
    ensures Total(s) == Plus(Plus(Total(s[..i]), LineValue(s[i])), Total(s[i + 1..]))
  {
    SplitAt(s, i);
    TotalAround(s[..i], s[i], s[i + 1..]);
  }

  /** `p * (q + d) == p * q + p * d`, also when the price is missing (NaN). */
  lemma LineValueSplit(item: LineItem, extra: int)
    ensures LineValue(item.(quantity := item.quantity + extra))
         == Plus(LineValue(item), LineValue(item.(quantity := extra)))
  {
    if item.product.price.Some? {
      var p := item.product.price.value;
      assert p * (item.quantity + extra) == p * item.quantity + p * extra;
    }
  }

  /** Raising one line's quantity by `extra` raises the total by the value
      of `extra` units at that line's price (NaN stays NaN). */
  lemma TotalBumpAt(items: seq<LineItem>, i: nat, extra: int, r: seq<LineItem>)
    requires i < |items| && |r| == |items|
    requires r[..i] == items[..i] && r[i + 1..] == items[i + 1..]
    requires r[i] == items[i].(quantity := items[i].quantity + extra)
    ensures Total(r) == Plus(Total(items), LineValue(LineItem(items[i].product, extra)))
  {
    TotalAt(items, i);
    TotalAt(r, i);
    LineValueSplit(items[i], extra);
    var pre, x, e, post := Total(items[..i]), LineValue(items[i]), LineValue(LineItem(items[i].product, extra)), Total(items[i + 1..]);
    assert Plus(Plus(pre, Plus(x, e)), post) == Plus(Plus(Plus(pre, x), post), e);
  }

  /** A successful add of a product already in the cart raises the total by
      the value of the added quantity at that item's price (NaN stays NaN). */
  lemma AddExistingTotal(items: seq<LineItem>, productId: ProductId, quantity: int, i: nat)
    requires UniqueIds(items) && i < |items| && items[i].product.id == productId
    ensures Total(AddLocal(items, productId, quantity))
         == Plus(Total(items), LineValue(LineItem(items[i].product, quantity)))
  {
    AddExistingParts(items, productId, quantity, i);
    TotalBumpAt(items, i, quantity, AddLocal(items, productId, quantity));
  }

  /** A successful add of a product not in the cart makes the total NaN: the
      appended partial snapshot has no price. */
  lemma AddNewTotal(items: seq<LineItem>, productId: ProductId, quantity: int)
    requires forall j :: 0 <= j < |items| ==> items[j].product.id != productId
    ensures Total(AddLocal(items, productId, quantity)) == None
  {
    TotalAppend(items, [PartialItem(productId, quantity)]);
    assert ([] + [PartialItem(productId, quantity)])[..0] == [];
  }

  // ---------------------------------------------------------------------------
  // Sequences of successful adds
  // ---------------------------------------------------------------------------

  /** The arguments of one `addToCart(productId, quantity)` call. */
  datatype AddRequest = AddRequest(productId: ProductId, quantity: int)

  /** The cart after a sequence of successful adds, applied in order. */
  function AddAll(items: seq<LineItem>, adds: seq<AddRequest>): seq<LineItem>
    decreases |adds|
  {
    if adds == [] then items
    else AddAll(AddLocal(items, adds[0].productId, adds[0].quantity), adds[1..])
  }

  function SumQuantities(adds: seq<AddRequest>): int
    decreases |adds|
  {
    if adds == [] then 0 else adds[0].quantity + SumQuantities(adds[1..])
  }

  /** Any sequence of successful adds keeps product ids unique and raises the
      item count by the sum of the added quantities. */
  lemma {:induction false} AddAllInvariant(items: seq<LineItem>, adds: seq<AddRequest>)
    requires UniqueIds(items)
    ensures UniqueIds(AddAll(items, adds))
    ensures ItemCount(AddAll(items, adds)) == ItemCount(items) + SumQuantities(adds)
    decreases |adds|
  {
    if adds != [] {
      var next := AddLocal(items, adds[0].productId, adds[0].quantity);
      AddLocalKeepsUnique(items, adds[0].productId, adds[0].quantity);
      AddLocalItemCount(items, adds[0].productId, adds[0].quantity);
      AddAllInvariant(next, adds[1..]);
    }
  }

  /** The partial items appended for adds of products the cart does not hold. */
  function Partials(adds: seq<AddRequest>): (r: seq<LineItem>)
    ensures |r| == |adds|
    ensures forall j :: 0 <= j < |adds| ==> r[j] == PartialItem(adds[j].productId, adds[j].quantity)
    decreases |adds|
  {
    if adds == [] then [] else [PartialItem(adds[0].productId, adds[0].quantity)] + Partials(adds[1..])
  }

  /** Regrouping a concatenation; stated apart so that the proof of
      `AddAllFresh` need not find it among the facts about `AddLocal`. */
  lemma SeqAssoc(a: seq<LineItem>, b: seq<LineItem>, c: seq<LineItem>)
    ensures (a + b) + c == a + (b + c)
  {
  }

  /** Adds of pairwise distinct products none of which is in the cart append
      one partial item per add, in call order: the cart then holds one line
      per distinct id. */
  lemma {:induction false} AddAllFresh(items: seq<LineItem>, adds: seq<AddRequest>)
    requires forall i, j :: 0 <= i < j < |adds| ==> adds[i].productId != adds[j].productId
    requires forall i, j :: 0 <= i < |items| && 0 <= j < |adds| ==> items[i].product.id != adds[j].productId
    ensures AddAll(items, adds) == items + Partials(adds)
    ensures |AddAll(items, adds)| == |items| + |adds|
    decreases |adds|
  {
    if adds != [] {
      var a, rest := adds[0], adds[1..];
      var p := PartialItem(a.productId, a.quantity);
      var next := items + [p];
      assert AddLocal(items, a.productId, a.quantity) == next by {
        assert forall j :: 0 <= j < |items| ==> items[j].product.id != a.productId;
        AddNew(items, a.productId, a.quantity);
      }
      assert forall i, j :: 0 <= i < j < |rest| ==> rest[i].productId != rest[j].productId by {
        forall i, j | 0 <= i < j < |rest| ensures rest[i].productId != rest[j].productId {
          assert rest[i] == adds[i + 1] && rest[j] == adds[j + 1];
        }
      }
      forall i, j | 0 <= i < |next| && 0 <= j < |rest|
        ensures next[i].product.id != rest[j].productId
      {
        assert rest[j] == adds[j + 1];
      }
      AddAllFresh(next, rest);
      var ps := Partials(rest);
      assert Partials(adds) == [p] + ps;
      assert next + ps == items + ([p] + ps) by {
        SeqAssoc(items, [p], ps);
      }
    }
  }

  // ---------------------------------------------------------------------------
  // Per-product quantities across repeated adds
  // ---------------------------------------------------------------------------

  /** The quantity the cart holds of one product, over all its line items. */
  function QuantityOf(items: seq<LineItem>, productId: ProductId): int {
    if items == [] then 0
    else
      var last := items[|items| - 1];
      QuantityOf(items[..|items| - 1], productId) + (if last.product.id == productId then last.quantity else 0)
  }

  lemma {:induction false} QuantityOfAppend(a: seq<LineItem>, b: seq<LineItem>, productId: ProductId)
    ensures QuantityOf(a + b, productId) == QuantityOf(a, productId) + QuantityOf(b, productId)
  {
    if b == [] {
      assert a + b == a;
    } else {
      var b' := b[..|b| - 1];
      assert (a + b)[..|a + b| - 1] == a + b';
      QuantityOfAppend(a, b', productId);
    }
  }

  lemma QuantityOfAt(s: seq<LineItem>, i: nat, productId: ProductId)
    requires i < |s|
    ensures QuantityOf(s, productId)
         == QuantityOf(s[..i], productId) + QuantityOf([s[i]], productId) + QuantityOf(s[i + 1..], productId)
  {
    assert s == s[..i] + [s[i]] + s[i + 1..];
    QuantityOfAppend(s[..i] + [s[i]], s[i + 1..], productId);
    QuantityOfAppend(s[..i], [s[i]], productId);
  }

  /** With unique ids, the one line item of a product holds all of its quantity. */
  lemma {:induction false} QuantityOfUnique(s: seq<LineItem>, i: nat)
    requires UniqueIds(s) && i < |s|
    ensures QuantityOf(s, s[i].product.id) == s[i].quantity
    decreases |s|
  {
    var pid := s[i].product.id;
    var s' := s[..|s| - 1];
    if i == |s| - 1 {
      QuantityOfAbsent(s', pid);
    } else {
      QuantityOfUnique(s', i);
    }
  }

  lemma {:induction false} QuantityOfAbsent(s: seq<LineItem>, productId: ProductId)
    requires forall j :: 0 <= j < |s| ==> s[j].product.id != productId
    ensures QuantityOf(s, productId) == 0
    decreases |s|
  {
    if s != [] {
      QuantityOfAbsent(s[..|s| - 1], productId);
    }
  }

  /** A successful add changes the quantity of the added product by exactly
      the added quantity and the quantity of every other product not at all. */
  lemma AddLocalQuantityOf(items: seq<LineItem>, productId: ProductId, quantity: int, other: ProductId)
    requires UniqueIds(items)
    ensures QuantityOf(AddLocal(items, productId, quantity), other)
         == QuantityOf(items, other) + (if other == productId then quantity else 0)
  {
    match Find(items, productId)
    case None =>
      QuantityOfAppend(items, [PartialItem(productId, quantity)], other);
      assert ([] + [PartialItem(productId, quantity)])[..0] == [];
    case Some(i) =>
      var r := AddLocal(items, productId, quantity);
      AddExistingParts(items, productId, quantity, i);
      QuantityOfAt(items, i, other);
      QuantityOfAt(r, i, other);
      assert ([] + [items[i]])[..0] == [] && ([] + [r[i]])[..0] == [];
  }

  /** The total quantity a sequence of adds requests for one product. */
  function SumFor(adds: seq<AddRequest>, productId: ProductId): int
    decreases |adds|
  {
    if adds == [] then 0
    else (if adds[0].productId == productId then adds[0].quantity else 0) + SumFor(adds[1..], productId)
  }

  lemma {:induction false} AddAllQuantityOf(items: seq<LineItem>, adds: seq<AddRequest>, productId: ProductId)
    requires UniqueIds(items)
    ensures QuantityOf(AddAll(items, adds), productId) == QuantityOf(items, productId) + SumFor(adds, productId)
    decreases |adds|
  {
    if adds != [] {
      AddLocalQuantityOf(items, adds[0].productId, adds[0].quantity, productId);
      AddLocalKeepsUnique(items, adds[0].productId, adds[0].quantity);
      AddAllQuantityOf(AddLocal(items, adds[0].productId, adds[0].quantity), adds[1..], productId);
    }
  }

  /** The cart holds a line for the product. */
  ghost predicate Holds(items: seq<LineItem>, productId: ProductId) {
    exists i :: 0 <= i < |items| && items[i].product.id == productId
  }

  /** Some add in the sequence is for the product. */
  ghost predicate Requested(adds: seq<AddRequest>, productId: ProductId) {
    exists k :: 0 <= k < |adds| && adds[k].productId == productId
  }

  /** After a successful add the cart holds a line for the added product and
      still holds one for every product it held before. */
  lemma AddLocalHolds(items: seq<LineItem>, productId: ProductId, quantity: int, other: ProductId)
    requires other == productId || Holds(items, other)
    ensures Holds(AddLocal(items, productId, quantity), other)
  {
    var r := AddLocal(items, productId, quantity);
    match Find(items, productId)
    case Some(k) =>
      assert r == BumpQuantity(items, productId, quantity);
      if other == productId {
        assert r[k].product.id == other;
      } else {
        var i :| 0 <= i < |items| && items[i].product.id == other;
        assert r[i].product.id == other;
      }
    case None =>
      assert r == items + [PartialItem(productId, quantity)];
      if other == productId {
        assert r[|items|].product.id == other;
      } else {
        var i :| 0 <= i < |items| && items[i].product.id == other;
        assert r[i].product.id == other;
      }
  }

  /** After a sequence of successful adds the cart holds a line for every
      product that was requested or already held. */
  lemma {:induction false} AddAllHolds(items: seq<LineItem>, adds: seq<AddRequest>, productId: ProductId)
    requires Requested(adds, productId) || Holds(items, productId)
    ensures Holds(AddAll(items, adds), productId)
    decreases |adds|
  {
    if adds != [] {
      var next := AddLocal(items, adds[0].productId, adds[0].quantity);
      if adds[0].productId == productId || Holds(items, productId) {
        AddLocalHolds(items, adds[0].productId, adds[0].quantity, productId);
      } else {
        var k :| 0 <= k < |adds| && adds[k].productId == productId;
        assert adds[1..][k - 1] == adds[k];
      }
      AddAllHolds(next, adds[1..], productId);
    }
  }

  /** The line of a product after a sequence of successful adds to a cart with
      unique ids is its only one, and its quantity is what the cart held of
      it plus every quantity requested for it. */
  lemma AddAllLine(items: seq<LineItem>, adds: seq<AddRequest>, i: nat)
    requires UniqueIds(items) && i < |AddAll(items, adds)|
    ensures var r := AddAll(items, adds);
      (forall j :: 0 <= j < |r| && j != i ==> r[j].product.id != r[i].product.id)
      && r[i].quantity == QuantityOf(items, r[i].product.id) + SumFor(adds, r[i].product.id)
  {
    var r := AddAll(items, adds);
    AddAllInvariant(items, adds);
    AddAllQuantityOf(items, adds, r[i].product.id);
    QuantityOfUnique(r, i);
    forall j | 0 <= j < |r| && j != i ensures r[j].product.id != r[i].product.id {
      if j < i {
        assert r[j].product.id != r[i].product.id;
      }
    }
  }

  /** Repeated adds converge: after any sequence of successful adds to a cart
      with unique ids, every product requested or held has exactly one line,
      whose quantity is what the cart held of it plus every quantity
      requested for it. */
  lemma RepeatedAdds(items: seq<LineItem>, adds: seq<AddRequest>, productId: ProductId)
    requires UniqueIds(items)
    requires Requested(adds, productId) || Holds(items, productId)
    ensures var r := AddAll(items, adds);
      exists i :: 0 <= i < |r| && r[i].product.id == productId
        && r[i].quantity == QuantityOf(items, productId) + SumFor(adds, productId)
        && (forall j :: 0 <= j < |r| && j != i ==> r[j].product.id != productId)
  {
    var r := AddAll(items, adds);
    AddAllHolds(items, adds, productId);
    var i :| 0 <= i < |r| && r[i].product.id == productId;
    AddAllLine(items, adds, i);
  }
}
