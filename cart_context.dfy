/** The client-side cart state manager. It owns the cart lines and the remote
    cart id, sends a remote "create cart" or "upsert item" call before it
    commits an add or a quantity change, deletes locally, and mirrors both
    fields into local storage under the keys `cartItems` and `cartId`. */
module CartContext {
  import opened Wrappers
  import opened Storage
  import Seqs
  import Auth

  /** A catalogue product; `price` is in cents. */
  datatype Product = Product(id: int, name: string, price: int, image: string,
                             category: string, unit: string, description: string)

  /** A cart line: the product's fields plus a quantity. */
  datatype CartItem = CartItem(product: Product, quantity: int)

  /** The store every new cart is opened for. */
  const StoreId: int := 2

  /** The two remote calls the manager can make. */
  datatype Request =
    | CreateCart(clienteId: Option<int>, lojaId: int, produtoId: int)
    | UpsertItem(quantity: int, produtoId: int, cartId: int)

  /** What the remote service answers: success (with the `id` of the response
      body, read only by "create cart") or a thrown error. */
  datatype Reply = Success(id: int) | Failure

  /** The notification each operation shows. */
  datatype Notice =
    | CartCreated | ItemUpdated | ItemAdded | CartIdMissing | AddFailed
    | CartEmptied | ItemRemoved | QuantityUpdated | QuantityFailed | CartCleared

  /** The customer id sent on cart creation: the user's id when the user is a
      customer. The session's user record has no role tag, so the test never
      holds and the id is always absent. */
  function CustomerId(user: Option<Auth.User>): Option<int>
  {
    None
  }

  /** JavaScript truthiness of a `number | null`: null and 0 are falsy. */
  predicate Truthy(id: Option<int>)
  {
    id.Some? && id.value != 0
  }

  /** The condition under which an add opens a new remote cart. */
  predicate CreatesCart(items: seq<CartItem>, cartId: Option<int>)
  {
    items == [] && cartId == None
  }

  // ---------------------------------------------------------------------
  // Line operations

  /** Index of the first line for product `id` (`items.find`). */
  function FirstIndex(items: seq<CartItem>, id: int): (r: Option<nat>)
    ensures r.Some? ==> r.value < |items| && items[r.value].product.id == id
    ensures r.Some? ==> forall j :: 0 <= j < r.value ==> items[j].product.id != id
    ensures r.None? ==> forall k :: 0 <= k < |items| ==> items[k].product.id != id
    decreases |items|
  {
    if items == [] then None
    else if items[0].product.id == id then Some(0)
    else match FirstIndex(items[1..], id)
      case None => None
      case Some(k) => Some(k + 1)
  }

  /** Every line for product `id` gets quantity `q`; all else stays. */
  function SetQuantity(items: seq<CartItem>, id: int, q: int): (r: seq<CartItem>)
    ensures |r| == |items|
    ensures forall k :: 0 <= k < |r| ==> r[k].product == items[k].product
    ensures forall k :: 0 <= k < |r| ==>
              r[k].quantity == if items[k].product.id == id then q else items[k].quantity
    decreases |items|
  {
    if items == [] then []
    else [if items[0].product.id == id then items[0].(quantity := q) else items[0]]
         + SetQuantity(items[1..], id, q)
  }

  function OtherProduct(id: int): CartItem -> bool
  {
    (l: CartItem) => l.product.id != id
  }

  /** The lines for products other than `id`, in order. */
  function Without(items: seq<CartItem>, id: int): (r: seq<CartItem>)
    ensures forall k :: 0 <= k < |r| ==> r[k] in items && r[k].product.id != id
    ensures forall k :: 0 <= k < |items| && items[k].product.id != id ==> items[k] in r
  {
    Seqs.Filter(OtherProduct(id), items)
  }

  predicate UniqueIds(items: seq<CartItem>)
  {
    forall i, j :: 0 <= i < j < |items| ==> items[i].product.id != items[j].product.id
  }

  predicate PositiveQuantities(items: seq<CartItem>)
  {
    forall k :: 0 <= k < |items| ==> items[k].quantity >= 1
  }

  /** No product in the cart has a negative price. */
  predicate NonNegativePrices(items: seq<CartItem>)
  {
    forall k :: 0 <= k < |items| ==> items[k].product.price >= 0
  }

  /** The cart invariant the operations keep: one line per product, and no
      line at quantity zero or below. */
  predicate WellFormed(items: seq<CartItem>)
  {
    UniqueIds(items) && PositiveQuantities(items)
  }

  // ---------------------------------------------------------------------
  // Totals, as `reduce` folds over the lines

  function QuantitySum(items: seq<CartItem>): int
  {
    if items == [] then 0 else items[0].quantity + QuantitySum(items[1..])
  }

  function PriceSum(items: seq<CartItem>): int
  {
    if items == [] then 0
    else items[0].product.price * items[0].quantity + PriceSum(items[1..])
  }

  /** Both totals are sums over the lines: they add up over any split. */
  lemma {:induction false} TotalsOfConcat(a: seq<CartItem>, b: seq<CartItem>)
    ensures QuantitySum(a + b) == QuantitySum(a) + QuantitySum(b)
    ensures PriceSum(a + b) == PriceSum(a) + PriceSum(b)
    decreases |a|
  {
    if a == [] {
      assert a + b == b;
    } else {
      assert (a + b)[0] == a[0];
      assert (a + b)[1..] == a[1..] + b;
      TotalsOfConcat(a[1..], b);
    }
  }

  /** An appended line at quantity 1 adds one item and its unit price. */
  lemma TotalsAfterAppend(items: seq<CartItem>, p: Product)
    ensures QuantitySum(items + [CartItem(p, 1)]) == QuantitySum(items) + 1
    ensures PriceSum(items + [CartItem(p, 1)]) == PriceSum(items) + p.price
  {
    TotalsOfConcat(items, [CartItem(p, 1)]);
    assert [CartItem(p, 1)][1..] == [];
  }

  /** With every quantity at least 1 the item count is at least the number
      of lines, and with non-negative prices as well the total price is
      non-negative. */
  lemma {:induction false} TotalsBounds(items: seq<CartItem>)
    requires PositiveQuantities(items)
    ensures QuantitySum(items) >= |items|
    ensures NonNegativePrices(items) ==> PriceSum(items) >= 0
    decreases |items|
  {
    if items != [] {
      var rest := items[1..];
      assert PositiveQuantities(rest) by {
        forall k | 0 <= k < |rest| ensures rest[k].quantity >= 1 {
          assert rest[k] == items[k + 1];
        }
      }
      TotalsBounds(rest);
      assert items[0].quantity >= 1;
      if NonNegativePrices(items) {
        assert NonNegativePrices(rest) by {
          forall k | 0 <= k < |rest| ensures rest[k].product.price >= 0 {
            assert rest[k] == items[k + 1];
          }
        }
        assert items[0].product.price * items[0].quantity >= 0;
      }
    }
  }

  /** Changing the quantity of the one line for `id` from its old value to
      `q` changes the item count by the difference and the total price by the
      unit price times the difference. */
  lemma {:induction false} TotalsAfterSetQuantity(items: seq<CartItem>, id: int, q: int, k: nat)
    requires UniqueIds(items) && k < |items| && items[k].product.id == id
    ensures QuantitySum(SetQuantity(items, id, q)) == QuantitySum(items) - items[k].quantity + q
    ensures PriceSum(SetQuantity(items, id, q))
            == PriceSum(items) + items[k].product.price * (q - items[k].quantity)
    decreases |items|
  {
    var rest := items[1..];
    var s := SetQuantity(items, id, q);
    assert s[1..] == SetQuantity(rest, id, q);
    var price, q0 := items[k].product.price, items[k].quantity;
    if k == 0 {
      forall j | 0 <= j < |rest| ensures rest[j].product.id != id {
        assert rest[j] == items[j + 1];
      }
      SetQuantityAbsent(rest, id, q);
      assert s[0] == CartItem(items[0].product, q);
      assert price * q == price * q0 + price * (q - q0) by {
        assert price * (q - q0) == price * q - price * q0;
      }
    } else {
      assert UniqueIds(rest) by {
        forall i, j | 0 <= i < j < |rest| ensures rest[i].product.id != rest[j].product.id {
          assert rest[i] == items[i + 1] && rest[j] == items[j + 1];
        }
      }
      assert items[0].product.id != id;
      assert s[0] == items[0];
      assert rest[k - 1] == items[k];
      TotalsAfterSetQuantity(rest, id, q, k - 1);
    }
  }

  // ---------------------------------------------------------------------
  // Properties of the line operations

  /** A quantity change for a product that has no line changes nothing: an
      update never adds a line. */
  lemma SetQuantityAbsent(items: seq<CartItem>, id: int, q: int)
    requires forall k :: 0 <= k < |items| ==> items[k].product.id != id
    ensures SetQuantity(items, id, q) == items
  {
    var r := SetQuantity(items, id, q);
    forall k | 0 <= k < |items| ensures r[k] == items[k] {
      assert r[k].product == items[k].product && r[k].quantity == items[k].quantity;
    }
  }

  /** Removing keeps the other lines in their order. */
  lemma WithoutIsSubsequence(items: seq<CartItem>, id: int)
    ensures Seqs.SubsequenceOf(Without(items, id), items)
  {
    Seqs.FilterIsSubsequence(OtherProduct(id), items);
  }

  /** Adding a new product and then removing it gives back the lines as they
      were. */
  lemma AppendThenRemove(items: seq<CartItem>, p: Product)
    requires FirstIndex(items, p.id).None?
    ensures Without(items + [CartItem(p, 1)], p.id) == items
  {
    var keep := OtherProduct(p.id);
    Seqs.FilterConcat(keep, items, [CartItem(p, 1)]);
    Seqs.FilterKeepsAll(keep, items);
    assert [CartItem(p, 1)][1..] == [];
    assert !keep(CartItem(p, 1));
  }

  /** Appending a product that has no line keeps the cart well-formed. */
  lemma AppendKeepsWellFormed(items: seq<CartItem>, p: Product)
    requires WellFormed(items) && FirstIndex(items, p.id).None?
    ensures WellFormed(items + [CartItem(p, 1)])
  {
    var r := items + [CartItem(p, 1)];
    forall i, j | 0 <= i < j < |r| ensures r[i].product.id != r[j].product.id {
      if j == |items| {
        assert r[i] == items[i];
      } else {
        assert r[i] == items[i] && r[j] == items[j];
      }
    }
  }

  /** Setting a positive quantity keeps the cart well-formed. */
  lemma SetQuantityKeepsWellFormed(items: seq<CartItem>, id: int, q: int)
    requires WellFormed(items) && q >= 1
    ensures WellFormed(SetQuantity(items, id, q))
  {
    var r := SetQuantity(items, id, q);
    forall i, j | 0 <= i < j < |r| ensures r[i].product.id != r[j].product.id {
      assert r[i].product == items[i].product && r[j].product == items[j].product;
    }
  }

  /** One step of the filter behind `Without`. */
  lemma WithoutStep(items: seq<CartItem>, id: int)
    requires items != []
    ensures Without(items, id)
            == (if items[0].product.id != id then [items[0]] else []) + Without(items[1..], id)
  {
    if items[0].product.id == id {
      assert [] + Without(items[1..], id) == Without(items[1..], id);
    }
  }

  /** Dropping the first line keeps the ids unique. */
  lemma UniqueTail(items: seq<CartItem>)
    requires items != [] && UniqueIds(items)
    ensures UniqueIds(items[1..])
  {
    var rest := items[1..];
    forall i, j | 0 <= i < j < |rest| ensures rest[i].product.id != rest[j].product.id {
      assert rest[i] == items[i + 1] && rest[j] == items[j + 1];
    }
  }

  /** A line whose id no later line has can go in front. */
  lemma UniqueCons(x: CartItem, tail: seq<CartItem>)
    requires UniqueIds(tail)
    requires forall m :: 0 <= m < |tail| ==> tail[m].product.id != x.product.id
    ensures UniqueIds([x] + tail)
  {
    var r := [x] + tail;
    forall i, j | 0 <= i < j < |r| ensures r[i].product.id != r[j].product.id {
      assert r[j] == tail[j - 1];
      if i > 0 {
        assert r[i] == tail[i - 1];
      }
    }
  }

  /** Removing a product's lines keeps the ids unique. */
  lemma {:induction false} WithoutKeepsUnique(items: seq<CartItem>, id: int)
    requires UniqueIds(items)
    ensures UniqueIds(Without(items, id))
    decreases |items|
  {
    if items != [] {
      var rest := items[1..];
      UniqueTail(items);
      WithoutKeepsUnique(rest, id);
      WithoutStep(items, id);
      var tail := Without(rest, id);
      if items[0].product.id != id {
        forall m | 0 <= m < |tail| ensures tail[m].product.id != items[0].product.id {
          var n :| 0 <= n < |rest| && rest[n] == tail[m];
          assert items[n + 1] == rest[n];
        }
        UniqueCons(items[0], tail);
      } else {
        assert Without(items, id) == tail;
      }
    }
  }

  /** Removing a product's lines keeps the cart well-formed. */
  lemma WithoutKeepsWellFormed(items: seq<CartItem>, id: int)
    requires WellFormed(items)
    ensures WellFormed(Without(items, id))
  {
    WithoutKeepsUnique(items, id);
    var r := Without(items, id);
    forall k | 0 <= k < |r| ensures r[k].quantity >= 1 {
      var n :| 0 <= n < |items| && items[n] == r[k];
    }
  }

  // ---------------------------------------------------------------------
  // The state manager

  class CartState {
    var items: seq<CartItem>
    var cartId: Option<int>
    /** The `cartItems` and `cartId` storage keys. */
    var savedItems: Option<Entry<seq<CartItem>>>
    var savedCartId: Option<Entry<Option<int>>>

    /** Storage holds exactly the current state. */
    predicate Mirrored()
      reads this
    {
      savedItems == Some(Parsed(items)) && savedCartId == Some(Parsed(cartId))
    }

    /** Mounting the provider over the stored entries. The state starts
        empty; the load effect adopts each parsable non-empty entry and
        removes an unparsable one (a removal the save effects overwrite, so
        it is not modelled apart); the save effects of the first commit then
        write the initial values, and the re-render with the loaded values
        writes those. */
    constructor (storedItems: Option<Entry<seq<CartItem>>>, storedCartId: Option<Entry<Option<int>>>)
      ensures items == Restore(storedItems, []) && cartId == Restore(storedCartId, None)
      ensures Mirrored()
    {
      var loadedItems := Restore(storedItems, []);
      var loadedId := Restore(storedCartId, None);
      items := loadedItems;
      cartId := loadedId;
      savedItems := Some(Parsed(loadedItems));
      savedCartId := Some(Parsed(loadedId));
    }

    /** The badge count: an empty cart shows 0, and a cart whose lines all
        hold at least one unit shows at least one per line. */
    function GetTotalItems(): (r: int)
      reads this
      ensures items == [] ==> r == 0
      ensures PositiveQuantities(items) ==> r >= |items|
    {
      assert PositiveQuantities(items) ==> QuantitySum(items) >= |items| by {
        if PositiveQuantities(items) {
          TotalsBounds(items);
        }
      }
      QuantitySum(items)
    }

    /** The cart total: an empty cart costs 0, and a cart with positive
        quantities and non-negative prices never costs less than 0. */
    function GetTotalPrice(): (r: int)
      reads this
      ensures items == [] ==> r == 0
      ensures PositiveQuantities(items) && NonNegativePrices(items) ==> r >= 0
    {
      assert PositiveQuantities(items) && NonNegativePrices(items) ==> PriceSum(items) >= 0 by {
        if PositiveQuantities(items) {
          TotalsBounds(items);
        }
      }
      PriceSum(items)
    }

    /** The outcome of a local removal of `productId`: its lines are gone,
        a cart emptied this way forgets its truthy remote id, and storage
        is rewritten for each field that was set. */
    twostate predicate LineRemoved(productId: int, notice: Notice)
      reads this
    {
      var emptied := items == [] && Truthy(old(cartId));
      && items == Without(old(items), productId)
      && cartId == (if emptied then None else old(cartId))
      && savedItems == Some(Parsed(items))
      && savedCartId == (if emptied then Some(Parsed(None)) else old(savedCartId))
      && notice == (if emptied then CartEmptied else ItemRemoved)
    }

    /** The outcome of the remote upsert of `quantity` for `productId` over
        the existing cart id: on success every line for the product takes
        the quantity and only the items key is rewritten; on failure
        nothing changes. */
    twostate predicate QuantitySet(productId: int, quantity: int, reply: Reply)
      reads this
    {
      && (reply.Success? ==>
            && items == SetQuantity(old(items), productId, quantity) && cartId == old(cartId)
            && savedItems == Some(Parsed(items)) && savedCartId == old(savedCartId))
      && (reply.Failure? ==> unchanged(this))
    }

    /** The outcome of the remote upsert of a new line: on success the line
        is appended at quantity 1 and only the items key is rewritten; on
        failure nothing changes. */
    twostate predicate LineAppended(product: Product, reply: Reply)
      reads this
    {
      && (reply.Success? ==>
            && items == old(items) + [CartItem(product, 1)] && cartId == old(cartId)
            && savedItems == Some(Parsed(items)) && savedCartId == old(savedCartId))
      && (reply.Failure? ==> unchanged(this))
    }

    /** The outcome of the "create cart" call: on success the cart is the
        one line for `product` under the returned id and both keys are
        rewritten; on failure nothing changes. */
    twostate predicate CartOpened(product: Product, reply: Reply)
      reads this
    {
      && (reply.Success? ==>
            && items == [CartItem(product, 1)] && cartId == Some(reply.id)
            && savedItems == Some(Parsed(items)) && savedCartId == Some(Parsed(cartId)))
      && (reply.Failure? ==> unchanged(this))
    }

    /** A page reload: a new provider mounted over this one's storage comes
        up with the same lines and cart id. */
    method Reopen() returns (restored: CartState)
      requires Mirrored()
      ensures restored.items == items && restored.cartId == cartId
      ensures restored.Mirrored()
    {
      restored := new CartState(savedItems, savedCartId);
    }

    /** Adds one unit of `product`. The remote call is made first and the
        local state changes only when it succeeds. */
    method AddToCart(product: Product, user: Option<Auth.User>, reply: Reply)
      returns (sent: Option<Request>, notice: Notice)
      modifies this
      // first add: open a remote cart for it
      ensures CreatesCart(old(items), old(cartId)) ==>
        && sent == Some(CreateCart(CustomerId(user), StoreId, product.id))
        && CartOpened(product, reply)
        && notice == (if reply.Success? then CartCreated else AddFailed)
      // no cart id: refuse without a remote call
      ensures !CreatesCart(old(items), old(cartId)) && old(cartId).None? ==>
        sent == None && notice == CartIdMissing && unchanged(this)
      // product already in the cart: one more unit
      ensures !CreatesCart(old(items), old(cartId)) && old(cartId).Some?
              && FirstIndex(old(items), product.id).Some? ==>
        var q := old(items)[FirstIndex(old(items), product.id).value].quantity + 1;
        && sent == Some(UpsertItem(q, product.id, old(cartId).value))
        && QuantitySet(product.id, q, reply)
        && notice == (if reply.Success? then ItemUpdated else AddFailed)
      // new product: append a line at quantity 1
      ensures !CreatesCart(old(items), old(cartId)) && old(cartId).Some?
              && FirstIndex(old(items), product.id).None? ==>
        && sent == Some(UpsertItem(1, product.id, old(cartId).value))
        && LineAppended(product, reply)
        && notice == (if reply.Success? then ItemAdded else AddFailed)
      ensures old(WellFormed(items)) ==> WellFormed(items)
      ensures old(Mirrored()) ==> Mirrored()
    {
      if items == [] && cartId == None {
        sent, notice := OpenCart(product, user, reply);
      } else {
        var existing := FirstIndex(items, product.id);
        if cartId == None {
          // both branches check the id before calling the service
          sent, notice := None, CartIdMissing;
        } else if existing.Some? {
          sent, notice := BumpLine(product, existing.value, reply);
        } else {
          sent, notice := AppendLine(product, reply);
        }
      }
    }

    /** The first add: the "create cart" call, then the one-line cart. */
    method OpenCart(product: Product, user: Option<Auth.User>, reply: Reply)
      returns (sent: Option<Request>, notice: Notice)
      requires CreatesCart(items, cartId)
      modifies this
      ensures sent == Some(CreateCart(CustomerId(user), StoreId, product.id))
      ensures CartOpened(product, reply)
      ensures notice == if reply.Success? then CartCreated else AddFailed
      ensures WellFormed(items)
      ensures old(Mirrored()) ==> Mirrored()
    {
      sent := Some(CreateCart(CustomerId(user), StoreId, product.id));
      if reply.Failure? {
        notice := AddFailed;
        return;
      }
      cartId := Some(reply.id);
      items := [CartItem(product, 1)];
      savedItems := Some(Parsed(items));
      savedCartId := Some(Parsed(cartId));
      notice := CartCreated;
    }

    /** One more unit of the product whose first line is at `k`. */
    method BumpLine(product: Product, k: nat, reply: Reply)
      returns (sent: Option<Request>, notice: Notice)
      requires cartId.Some? && FirstIndex(items, product.id) == Some(k)
      modifies this
      ensures var q := old(items)[k].quantity + 1;
        && sent == Some(UpsertItem(q, product.id, old(cartId).value))
        && QuantitySet(product.id, q, reply)
        && notice == (if reply.Success? then ItemUpdated else AddFailed)
      ensures old(WellFormed(items)) ==> WellFormed(items)
      ensures old(Mirrored()) ==> Mirrored()
    {
      var newQuantity := items[k].quantity + 1;
      sent := Some(UpsertItem(newQuantity, product.id, cartId.value));
      if reply.Failure? {
        notice := AddFailed;
        return;
      }
      if WellFormed(items) {
        SetQuantityKeepsWellFormed(items, product.id, newQuantity);
      }
      items := SetQuantity(items, product.id, newQuantity);
      savedItems := Some(Parsed(items));
      notice := ItemUpdated;
    }

    /** A new line at quantity 1 for a product the cart does not hold. */
    method AppendLine(product: Product, reply: Reply)
      returns (sent: Option<Request>, notice: Notice)
      requires cartId.Some? && FirstIndex(items, product.id).None?
      modifies this
      ensures sent == Some(UpsertItem(1, product.id, old(cartId).value))
      ensures LineAppended(product, reply)
      ensures notice == if reply.Success? then ItemAdded else AddFailed
      ensures old(WellFormed(items)) ==> WellFormed(items)
      ensures old(Mirrored()) ==> Mirrored()
    {
      sent := Some(UpsertItem(1, product.id, cartId.value));
      if reply.Failure? {
        notice := AddFailed;
        return;
      }
      if WellFormed(items) {
        AppendKeepsWellFormed(items, product);
      }
      items := items + [CartItem(product, 1)];
      savedItems := Some(Parsed(items));
      notice := ItemAdded;
    }

    /** Removes every line for `productId`, with no remote call; a cart
        emptied this way forgets its (truthy) remote id. */
    method RemoveFromCart(productId: int) returns (notice: Notice)
      modifies this
      ensures LineRemoved(productId, notice)
      ensures old(WellFormed(items)) ==> WellFormed(items)
      ensures old(Mirrored()) ==> Mirrored()
    {
      if WellFormed(items) {
        WithoutKeepsWellFormed(items, productId);
      }
      var updatedItems := Without(items, productId);
      items := updatedItems;
      savedItems := Some(Parsed(items));
      if |updatedItems| == 0 && Truthy(cartId) {
        cartId := None;
        savedCartId := Some(Parsed(cartId));
        notice := CartEmptied;
      } else {
        notice := ItemRemoved;
      }
    }

    /** Sets the quantity of `productId`'s line; a quantity of zero or below
        removes the line instead. */
    method UpdateQuantity(productId: int, quantity: int, reply: Reply)
      returns (sent: Option<Request>, notice: Notice)
      modifies this
      ensures quantity <= 0 ==> sent == None && LineRemoved(productId, notice)
      ensures quantity > 0 && old(cartId).None? ==>
        sent == None && notice == CartIdMissing && unchanged(this)
      ensures quantity > 0 && old(cartId).Some? ==>
        && sent == Some(UpsertItem(quantity, productId, old(cartId).value))
        && QuantitySet(productId, quantity, reply)
        && notice == (if reply.Success? then QuantityUpdated else QuantityFailed)
      ensures old(WellFormed(items)) ==> WellFormed(items)
      ensures old(Mirrored()) ==> Mirrored()
    {
      if quantity <= 0 {
        sent := None;
        notice := RemoveFromCart(productId);
        return;
      }
      if cartId == None {
        sent, notice := None, CartIdMissing;
        return;
      }
      sent := Some(UpsertItem(quantity, productId, cartId.value));
      if reply.Failure? {
        notice := QuantityFailed;
        return;
      }
      if WellFormed(items) {
        SetQuantityKeepsWellFormed(items, productId, quantity);
      }
      items := SetQuantity(items, productId, quantity);
      savedItems := Some(Parsed(items));
      notice := QuantityUpdated;
    }

    /** Empties the cart and forgets the remote id, with no remote call. */
    method ClearCart() returns (notice: Notice)
      modifies this
      ensures items == [] && cartId == None
      ensures savedItems == Some(Parsed([]))
      ensures savedCartId == if old(cartId) != None then Some(Parsed(None)) else old(savedCartId)
      ensures notice == CartCleared
      ensures old(Mirrored()) ==> Mirrored()
    {
      items := [];
      savedItems := Some(Parsed(items));
      if cartId != None {
        cartId := None;
        savedCartId := Some(Parsed(cartId));
      }
      notice := CartCleared;
    }
  }

  /** A first add that opens cart 100, a second add of the same product, and
      the minus rule taking its quantity to zero. */
  method ExampleSession()
  {
    var cart := new CartState(None, None);
    var p := Product(1, "Banana", 499, "", "Frutas", "kg", "");
    var sent, notice := cart.AddToCart(p, None, Success(100));
    assert cart.items == [CartItem(p, 1)] && cart.cartId == Some(100);
    assert cart.items[1..] == [];
    assert PriceSum(cart.items) == 499 * 1 + PriceSum([]);
    assert cart.GetTotalPrice() == 499;
    sent, notice := cart.AddToCart(p, None, Success(0));
    assert sent == Some(UpsertItem(2, 1, 100));
    assert cart.items == [CartItem(p, 2)];
    assert cart.items[1..] == [];
    assert PriceSum(cart.items) == 499 * 2 + PriceSum([]);
    assert QuantitySum(cart.items) == 2 + QuantitySum([]);
    assert cart.GetTotalPrice() == 998 && cart.GetTotalItems() == 2;
    sent, notice := cart.UpdateQuantity(1, 0, Failure);
    assert cart.items == [] && cart.cartId == None && sent == None;
    assert cart.Mirrored();
  }
}
