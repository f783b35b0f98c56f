/** The in-memory store: one cart keyed by product id, at most one applied
    discount code, the list of issued codes and the append-only order list.
    The applied code is held as an index into `discountCodes`, because the
    store keeps a reference to that very entry: when an order consumes the
    code, the applied code is the entry that became used. */
module Store {
  import opened Results
  import opened Sequences
  import opened Types
  import opened Pricing

  class CouponCartStore {
    /** The catalog, fixed when the store is created. */
    const products: seq<Product>
    var cart: seq<CartItem>
    var applied: Option<nat>
    var orders: seq<Order>
    var discountCodes: seq<DiscountCode>

    /** What every command keeps true. */
    ghost predicate Valid()
      reads this
    {
      && CatalogShape(products)
      && CartInvariant(products, cart)
      && (applied.Some? ==> applied.value < |discountCodes|)
      && CodesInvariant(discountCodes)
      && OrdersInvariant(orders)
    }

    /** The state at start-up: empty cart, no orders, only SAVE15 issued. */
    constructor ()
      ensures Valid()
      ensures products == Catalog
      ensures cart == [] && applied == None && orders == []
      ensures discountCodes == [Save15]
    {
      products := Catalog;
      CatalogHasShape();
      cart := [];
      applied := None;
      orders := [];
      discountCodes := [Save15];
    }

    /** The code currently applied, if any. */
    function AppliedCode(): Option<DiscountCode>
      reads this
      requires Valid()
    {
      match applied
      case None => None
      case Some(i) => Some(discountCodes[i])
    }

    /** `getCartState` / `getCart`: the view derived from the current state. */
    function GetCart(): Cart
      reads this
      requires Valid()
    {
      View(cart, AppliedCode())
    }

    /** `getCart`: the view lists the cart's lines, its subtotal is their
        sum, the discount is exactly the applied code's percentage of it
        and the total the rest; without a code nothing is taken off. While
        every line holds at least one unit, discount and total lie between
        0 and the subtotal. The label is the applied code's string, or none
        when that string is empty. */
    lemma GetCartView()
      requires Valid()
      ensures var c := GetCart();
        && c.items == cart
        && c.subtotal == Subtotal(cart)
        && c.total == c.subtotal - c.discountAmount
        && (applied.None? ==> c.discountAmount == 0.0 && c.total == c.subtotal
                              && c.appliedDiscountCode.None?)
        && (applied.Some? ==>
              c.discountAmount * 100.0 == c.subtotal * discountCodes[applied.value].percentage as real
              && c.appliedDiscountCode
                 == if discountCodes[applied.value].code == "" then None
                    else Some(discountCodes[applied.value].code))
      ensures AllPositive(cart) ==>
        var c := GetCart();
        0.0 <= c.discountAmount <= c.subtotal && 0.0 <= c.total <= c.subtotal
    {
      ViewArithmetic(cart, AppliedCode());
      if AllPositive(cart) {
        forall k | 0 <= k < |cart| ensures cart[k].price >= 0.0 {
          assert FromCatalog(products, cart[k]);
          var j :| 0 <= j < |products| && products[j] == Product(cart[k].id, cart[k].name, cart[k].price);
        }
        assert NonNegative(cart);
      }
    }

    /** `getProducts`: the fixed catalog, six products with distinct ids and
        positive prices. */
    function GetProducts(): (ps: seq<Product>)
      reads this
      requires Valid()
      ensures |ps| == 6
      ensures forall i, j :: 0 <= i < j < |ps| ==> ps[i].id != ps[j].id
      ensures forall k :: 0 <= k < |ps| ==> ps[k].price > 0.0
    {
      products
    }

    /** No placed order carries this id. */
    predicate FreshOrderId(id: string)
      reads this
    {
      forall k :: 0 <= k < |orders| ==> orders[k].id != id
    }

    /** No issued code equals this one up to case. */
    predicate FreshCode(code: string)
      reads this
    {
      forall k :: 0 <= k < |discountCodes| ==> Lower(discountCodes[k].code) != Lower(code)
    }

    /** `addToCart`: merge `quantity` into the product's line, or append a new
        line; an unknown product fails and changes nothing. */
    method AddToCart(productId: string, quantity: int) returns (r: Result<Cart, StoreError>)
      requires Valid()
      modifies this
      ensures Valid()
      ensures applied == old(applied) && orders == old(orders) && discountCodes == old(discountCodes)
      ensures r.Err? <==> FindProduct(products, productId).None?
      ensures r.Err? ==> r.error == ProductNotFound && cart == old(cart)
      ensures r.Ok? ==> cart == AddLine(old(cart), FindProduct(products, productId).value, quantity)
      ensures r.Ok? ==> r.value == GetCart()
      ensures old(AllPositive(cart)) && quantity >= 1 ==> AllPositive(cart)
    {
      var found := FindProduct(products, productId);
      if found.None? {
        return Err(ProductNotFound);
      }
      AddLineInvariant(products, cart, found.value, quantity);
      cart := AddLine(cart, found.value, quantity);
      r := Ok(GetCart());
    }

    /** `removeFromCart`: take one unit off the product's line, deleting the
        line when it held one unit or fewer; a product not in the cart fails
        and changes nothing. */
    method RemoveFromCart(productId: string) returns (r: Result<Cart, StoreError>)
      requires Valid()
      modifies this
      ensures Valid()
      ensures applied == old(applied) && orders == old(orders) && discountCodes == old(discountCodes)
      ensures r.Err? <==> LineIndex(old(cart), productId).None?
      ensures r.Err? ==> r.error == ItemNotInCart && cart == old(cart)
      ensures r.Ok? ==> LineIndex(old(cart), productId).Some? && cart == RemoveOne(old(cart), productId)
      ensures r.Ok? ==> r.value == GetCart()
      ensures old(AllPositive(cart)) ==> AllPositive(cart)
    {
      if LineIndex(cart, productId).None? {
        return Err(ItemNotInCart);
      }
      RemoveOneInvariant(products, cart, productId);
      cart := RemoveOne(cart, productId);
      r := Ok(GetCart());
    }

    /** `clearCart`: drop every line and the applied code. */
    method ClearCart() returns (c: Cart)
      requires Valid()
      modifies this
      ensures Valid()
      ensures cart == [] && applied == None
      ensures orders == old(orders) && discountCodes == old(discountCodes)
      ensures c == GetCart() && c.subtotal == 0.0 && c.total == 0.0 && c.appliedDiscountCode == None
    {
      cart := [];
      applied := None;
      c := GetCart();
    }

    /** `applyDiscount`: apply the first unused code equal to `code` up to
        case, replacing whatever was applied; otherwise fail and keep the
        applied code. */
    method ApplyDiscount(code: string) returns (r: Result<Cart, StoreError>)
      requires Valid()
      modifies this
      ensures Valid()
      ensures cart == old(cart) && orders == old(orders) && discountCodes == old(discountCodes)
      ensures r.Err? <==> UsableIndex(discountCodes, code).None?
      ensures r.Err? ==> r.error == InvalidOrUsedCode && applied == old(applied)
      ensures r.Ok? ==> applied == UsableIndex(discountCodes, code)
      ensures r.Ok? ==> r.value == GetCart()
    {
      var at := UsableIndex(discountCodes, code);
      if at.None? {
        return Err(InvalidOrUsedCode);
      }
      applied := at;
      r := Ok(GetCart());
    }

    /** `removeDiscount`: forget the applied code, keep the lines. */
    method RemoveDiscount() returns (c: Cart)
      requires Valid()
      modifies this
      ensures Valid()
      ensures applied == None
      ensures cart == old(cart) && orders == old(orders) && discountCodes == old(discountCodes)
      ensures c == GetCart() && c.discountAmount == 0.0 && c.total == c.subtotal
    {
      applied := None;
      c := GetCart();
    }

    /** `generateNthOrderDiscount`: unless forced, issue nothing unless the
        order count is a positive multiple of `NthOrder`; otherwise append a
        fresh unused 10% `SAVE10-` code and return it. The suffix stands for
        the upper-cased first eight characters of a fresh uuid. */
    method GenerateNthOrderDiscount(force: bool, suffix: string) returns (d: Option<DiscountCode>)
      requires Valid()
      requires force || NthOrderDue(|orders|) ==> IsSuffix(suffix) && FreshCode(Save10Prefix + suffix)
      modifies this
      ensures Valid()
      ensures cart == old(cart) && applied == old(applied) && orders == old(orders)
      ensures d.Some? <==> force || NthOrderDue(|orders|)
      ensures d.Some? ==> IsSuffix(suffix) && d.value == NewCode(suffix)
      ensures d.Some? ==> discountCodes == old(discountCodes) + [d.value]
      ensures d.None? ==> discountCodes == old(discountCodes)
    {
      if !force && !NthOrderDue(|orders|) {
        return None;
      }
      var code := NewCode(suffix);
      AddCode(discountCodes, code);
      discountCodes := discountCodes + [code];
      d := Some(code);
    }

    /** `createOrder`: snapshot a non-empty cart into a new order, mark the
        applied code used, and every `NthOrder`-th order issue a new code.
        The cart and the applied code are left as they were. */
    method CreateOrder(details: CustomerDetails, orderId: string, createdAt: int, suffix: string)
      returns (r: Result<Placement, StoreError>)
      requires Valid()
      requires cart != [] ==> FreshOrderId(orderId)
      requires cart != [] && NthOrderDue(|orders| + 1) ==>
                 IsSuffix(suffix) && FreshCode(Save10Prefix + suffix)
      modifies this
      ensures Valid()
      ensures cart == old(cart) && applied == old(applied)
      ensures r.Err? <==> old(cart) == []
      ensures r.Err? ==> r.error == EmptyCart && orders == old(orders) && discountCodes == old(discountCodes)
      ensures r.Ok? ==>
        var v := old(GetCart());
        && r.value.order == Order(orderId, v.items, v.subtotal, v.discountAmount, v.total,
                                  v.appliedDiscountCode, createdAt, details)
        && orders == old(orders) + [r.value.order]
      ensures r.Ok? ==> GetCart() == old(GetCart())
      ensures r.Ok? && applied.Some? ==>
        |old(discountCodes)| <= |discountCodes|
        && discountCodes[..|old(discountCodes)|]
           == old(discountCodes)[applied.value := old(discountCodes)[applied.value].(isUsed := true)]
        && discountCodes[applied.value].isUsed
      ensures r.Ok? && applied.None? ==>
        |old(discountCodes)| <= |discountCodes| && discountCodes[..|old(discountCodes)|] == old(discountCodes)
      ensures r.Ok? ==> (r.value.newDiscount.Some? <==> |orders| % NthOrder == 0)
      ensures r.Ok? && r.value.newDiscount.Some? ==>
        IsSuffix(suffix) && r.value.newDiscount.value == NewCode(suffix)
        && |discountCodes| == |old(discountCodes)| + 1
        && discountCodes[|discountCodes| - 1] == NewCode(suffix)
      ensures r.Ok? && r.value.newDiscount.None? ==> |discountCodes| == |old(discountCodes)|
    {
      if cart == [] {
        return Err(EmptyCart);
      }
      var view := GetCart();
      var order := Order(orderId, view.items, view.subtotal, view.discountAmount, view.total,
                         view.appliedDiscountCode, createdAt, details);
      AddOrder(orders, order);
      orders := orders + [order];
      if applied.Some? {
        CodeIndexFindsOwn(discountCodes, applied.value);
        var at := CodeIndex(discountCodes, discountCodes[applied.value].code);
        if at.Some? {
          MarkUsed(discountCodes, at.value);
          ViewIgnoresUse(cart, discountCodes[at.value]);
          discountCodes := discountCodes[at.value := discountCodes[at.value].(isUsed := true)];
        }
      }
      assert GetCart() == view;
      var newDiscount := None;
      if |orders| % NthOrder == 0 {
        newDiscount := GenerateNthOrderDiscount(true, suffix);
      }
      r := Ok(Placement(order, newDiscount));
    }

    /** `getOrders`: every order, newest first. */
    function GetOrders(): (os: seq<Order>)
      reads this
      ensures |os| == |orders|
      ensures forall k :: 0 <= k < |os| ==> os[k] == orders[|orders| - 1 - k]
    {
      Reversed(orders)
    }

    /** `getOrderById`: the first order with this id, or `None`. */
    function GetOrderById(id: string): (r: Option<Order>)
      reads this
      ensures r.Some? ==> r.value.id == id && r.value in orders
      ensures r.None? <==> forall k :: 0 <= k < |orders| ==> orders[k].id != id
    {
      match FirstIndex(orders, (o: Order) => o.id == id)
      case None => None
      case Some(k) => Some(orders[k])
    }

    /** `getAdminStats`: sums over all orders and the codes newest first.
        Revenue and discounts given together make up the order subtotals. */
    function GetAdminStats(): (s: AdminStats)
      reads this
      requires Valid()
      ensures s.itemCount == Count(orders, OrderQuantity)
      ensures s.totalAmount == Sum(orders, OrderTotal)
      ensures s.totalDiscountAmount == Sum(orders, OrderDiscount)
      ensures s.totalAmount + s.totalDiscountAmount == Sum(orders, OrderSubtotal)
      ensures |s.discountCodes| == |discountCodes|
      ensures forall k :: 0 <= k < |discountCodes| ==>
                s.discountCodes[k] == discountCodes[|discountCodes| - 1 - k]
    {
      RevenuePlusDiscounts(orders);
      AdminStats(Count(orders, OrderQuantity), Sum(orders, OrderTotal),
                 Reversed(discountCodes), Sum(orders, OrderDiscount))
    }
  }
}
