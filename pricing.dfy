/** The fixed catalog, case-insensitive code matching, and the money
    arithmetic the store derives from its state: cart subtotal, discount
    and total, and the admin aggregates over orders. */
module Pricing {
  import opened Results
  import opened Sequences
  import opened Types

  /** A new discount code is issued every `NthOrder`-th order. */
  const NthOrder: nat := 2
  /** The prefix of every code issued by the Nth-order rule. */
  const Save10Prefix: string := "SAVE10-"
  /** The code the store starts with. */
  const Save15: DiscountCode := DiscountCode("SAVE15", 15, false)

  /** The six products, in creation order. */
  const Catalog: seq<Product> := [
    Product("prod_1", "Quantum-Charged Mug", 42.0),
    Product("prod_2", "Chrono-Shifting T-Shirt", 55.0),
    Product("prod_3", "Aether-Infused Socks", 25.0),
    Product("prod_4", "Zero-Gravity Pen", 30.0),
    Product("prod_5", "Hyperspace Hoodie", 95.0),
    Product("prod_6", "Singularity Smartwatch", 250.0)
  ]

  // ---------------------------------------------------------------------
  // Lookups

  function HasId(id: string): Product -> bool
  {
    (p: Product) => p.id == id
  }

  /** Six products with distinct ids and positive prices: what the store
      relies on about its catalog. */
  predicate CatalogShape(products: seq<Product>)
  {
    && |products| == 6
    && (forall i, j :: 0 <= i < j < |products| ==> products[i].id != products[j].id)
    && (forall k :: 0 <= k < |products| ==> products[k].price > 0.0)
  }

  lemma CatalogHasShape()
    ensures CatalogShape(Catalog)
  {
  }

  /** `products.find(p => p.id === productId)`. */
  function FindProduct(products: seq<Product>, id: string): (r: Option<Product>)
    ensures r.Some? ==> r.value in products && r.value.id == id
    ensures r.None? <==> forall k :: 0 <= k < |products| ==> products[k].id != id
  {
    match FirstIndex(products, HasId(id))
    case None => None
    case Some(k) => Some(products[k])
  }

  function LineHasId(id: string): CartItem -> bool
  {
    (l: CartItem) => l.id == id
  }

  /** Position of the cart line for `id` (the cart map's key lookup). */
  function LineIndex(lines: seq<CartItem>, id: string): (r: Option<nat>)
    ensures r.Some? ==> r.value < |lines| && lines[r.value].id == id
    ensures r.None? <==> forall k :: 0 <= k < |lines| ==> lines[k].id != id
  {
    FirstIndex(lines, LineHasId(id))
  }

  /** At most one line per product id. */
  predicate DistinctIds(lines: seq<CartItem>)
  {
    forall i, j :: 0 <= i < j < |lines| ==> lines[i].id != lines[j].id
  }

  /** The line a product is first put into the cart as. */
  function NewLine(p: Product, quantity: int): CartItem
  {
    CartItem(p.id, p.name, p.price, quantity)
  }

  /** A line carries the id, name and price of a catalog product. */
  predicate FromCatalog(products: seq<Product>, l: CartItem)
  {
    Product(l.id, l.name, l.price) in products
  }

  /** What the store keeps true of its cart lines. */
  predicate CartInvariant(products: seq<Product>, lines: seq<CartItem>)
  {
    DistinctIds(lines) && forall k :: 0 <= k < |lines| ==> FromCatalog(products, lines[k])
  }

  /** Changing the quantity of line `i` by `delta` keeps one line per id
      and leaves the line where it was. */
  lemma AdjustQuantity(products: seq<Product>, lines: seq<CartItem>, i: nat, delta: int)
    requires CartInvariant(products, lines) && i < |lines|
    ensures var lines' := lines[i := lines[i].(quantity := lines[i].quantity + delta)];
      && CartInvariant(products, lines')
      && LineIndex(lines', lines[i].id) == Some(i)
      && (AllPositive(lines) && lines[i].quantity + delta >= 1 ==> AllPositive(lines'))
  {
    var line := lines[i].(quantity := lines[i].quantity + delta);
    var lines' := lines[i := line];
    assert FromCatalog(products, line) by { assert FromCatalog(products, lines[i]); }
    assert LineHasId(lines[i].id)(lines'[i]);
  }

  /** Changing the quantity of line `i` by `delta` moves the subtotal by its
      price times `delta`. */
  lemma SubtotalAdjust(lines: seq<CartItem>, i: nat, delta: int)
    requires i < |lines|
    ensures Subtotal(lines[i := lines[i].(quantity := lines[i].quantity + delta)])
            == Subtotal(lines) + lines[i].price * delta as real
  {
    SumUpdate(lines, i, lines[i].(quantity := lines[i].quantity + delta), LineTotal);
    LineTotalShift(lines[i], delta);
  }

  /** Appending a line for a catalog product not yet in the cart keeps one
      line per id and adds price times quantity to the subtotal. */
  lemma AddNewLine(products: seq<Product>, lines: seq<CartItem>, p: Product, quantity: int)
    requires CartInvariant(products, lines) && p in products
    requires LineIndex(lines, p.id).None?
    ensures var lines' := lines + [NewLine(p, quantity)];
      && CartInvariant(products, lines')
      && LineIndex(lines', p.id) == Some(|lines|)
      && (AllPositive(lines) && quantity >= 1 ==> AllPositive(lines'))
  {
    var line := NewLine(p, quantity);
    var lines' := lines + [line];
    assert lines'[..|lines|] == lines;
    assert LineHasId(line.id)(lines'[|lines|]);
  }

  /** Deleting line `i` keeps one line per id. */
  lemma DeleteLine(products: seq<Product>, lines: seq<CartItem>, i: nat)
    requires CartInvariant(products, lines) && i < |lines|
    ensures var lines' := lines[..i] + lines[i + 1..];
      && CartInvariant(products, lines')
      && (AllPositive(lines) ==> AllPositive(lines'))
  {
    var lines' := lines[..i] + lines[i + 1..];
    forall k | 0 <= k < |lines'|
      ensures lines'[k] == lines[if k < i then k else k + 1]
    {
    }
    forall a, b | 0 <= a < b < |lines'|
      ensures lines'[a].id != lines'[b].id
    {
      var a', b' := if a < i then a else a + 1, if b < i then b else b + 1;
      assert lines'[a] == lines[a'] && lines'[b] == lines[b'] && a' < b';
    }
  }

  /** With one line per id, deleting line `i` leaves no line for its id. */
  lemma DeleteLineGone(lines: seq<CartItem>, i: nat)
    requires DistinctIds(lines) && i < |lines|
    ensures LineIndex(lines[..i] + lines[i + 1..], lines[i].id).None?
  {
    var lines' := lines[..i] + lines[i + 1..];
    forall k | 0 <= k < |lines'|
      ensures lines'[k].id != lines[i].id
    {
      var k' := if k < i then k else k + 1;
      assert lines'[k] == lines[k'] && k' != i;
    }
  }

  // ---------------------------------------------------------------------
  // The two cart commands on the line list

  /** Units of product `id` in the cart; 0 when it has no line. */
  function QuantityOf(lines: seq<CartItem>, id: string): int
  {
    match LineIndex(lines, id)
    case None => 0
    case Some(i) => lines[i].quantity
  }

  /** `addToCart`: add `quantity` to the line of `p` when there is one,
      otherwise append a line for `p` at the end. */
  function AddLine(lines: seq<CartItem>, p: Product, quantity: int): seq<CartItem>
  {
    match LineIndex(lines, p.id)
    case Some(i) => lines[i := lines[i].(quantity := lines[i].quantity + quantity)]
    case None => lines + [NewLine(p, quantity)]
  }

  /** `removeFromCart`: take one unit off the line of `id`, deleting the line
      when it held one unit or fewer. */
  function RemoveOne(lines: seq<CartItem>, id: string): seq<CartItem>
    requires LineIndex(lines, id).Some?
  {
    var i := LineIndex(lines, id).value;
    if lines[i].quantity > 1 then lines[i := lines[i].(quantity := lines[i].quantity - 1)]
    else lines[..i] + lines[i + 1..]
  }

  /** Line lookup depends on the ids alone. */
  lemma LineIndexByIds(a: seq<CartItem>, b: seq<CartItem>, id: string)
    requires |a| == |b| && forall k :: 0 <= k < |a| ==> a[k].id == b[k].id
    ensures LineIndex(a, id) == LineIndex(b, id)
  {
    var ra, rb := LineIndex(a, id), LineIndex(b, id);
    assert ra.Some? <==> rb.Some?;
    if ra.Some? && rb.Some? {
      assert b[ra.value].id == id && a[rb.value].id == id;
      assert ra.value >= rb.value && rb.value >= ra.value;
    }
  }

  /** Looking up in a concatenation: the first part's line if it has one,
      else the second part's, shifted past the first. */
  lemma LineIndexConcat(a: seq<CartItem>, b: seq<CartItem>, id: string)
    ensures LineIndex(a, id).Some? ==> LineIndex(a + b, id) == LineIndex(a, id)
    ensures LineIndex(a, id).None? && LineIndex(b, id).Some? ==>
              LineIndex(a + b, id) == Some(|a| + LineIndex(b, id).value)
    ensures LineIndex(a, id).None? && LineIndex(b, id).None? ==> LineIndex(a + b, id).None?
  {
    var ab := a + b;
    var r, ra, rb := LineIndex(ab, id), LineIndex(a, id), LineIndex(b, id);
    if ra.Some? {
      assert ab[ra.value] == a[ra.value];
      assert r.Some? && r.value <= ra.value;
      assert ab[r.value] == a[r.value];
    } else if rb.Some? {
      assert ab[|a| + rb.value] == b[rb.value];
      assert r.Some? && r.value <= |a| + rb.value;
      if r.value < |a| {
        assert false;
      }
      assert ab[r.value] == b[r.value - |a|];
    } else {
      forall k | 0 <= k < |ab| ensures ab[k].id != id {
        if k < |a| {
          assert ab[k] == a[k];
        } else {
          assert ab[k] == b[k - |a|];
        }
      }
    }
  }

  /** The lookup in a single line. */
  lemma LineIndexSingle(l: CartItem, id: string)
    ensures LineIndex([l], id) == if l.id == id then Some(0) else None
  {
  }

  /** Appending a line leaves earlier lookups alone and finds the new line
      only for an id that had none. */
  lemma LineIndexAppend(lines: seq<CartItem>, l: CartItem, id: string)
    ensures LineIndex(lines, id).Some? ==> LineIndex(lines + [l], id) == LineIndex(lines, id)
    ensures LineIndex(lines, id).None? ==>
              LineIndex(lines + [l], id) == if l.id == id then Some(|lines|) else None
  {
    LineIndexConcat(lines, [l], id);
    LineIndexSingle(l, id);
  }

  /** Deleting line `i` shifts the lookup of every other id past it. */
  lemma LineIndexDelete(lines: seq<CartItem>, i: nat, id: string)
    requires i < |lines| && lines[i].id != id
    ensures LineIndex(lines, id).None? ==> LineIndex(lines[..i] + lines[i + 1..], id).None?
    ensures LineIndex(lines, id).Some? ==>
              var j := LineIndex(lines, id).value;
              LineIndex(lines[..i] + lines[i + 1..], id) == Some(if j < i then j else j - 1)
  {
    var a, x, b := lines[..i], lines[i], lines[i + 1..];
    assert lines == (a + [x]) + b;
    LineIndexAppend(a, x, id);
    assert LineIndex(a + [x], id) == LineIndex(a, id);
    LineIndexConcat(a + [x], b, id);
    LineIndexConcat(a, b, id);
  }

  /** Adding keeps the cart invariant, and keeps every line positive when
      at least one unit is added. */
  lemma AddLineInvariant(products: seq<Product>, lines: seq<CartItem>, p: Product, quantity: int)
    requires CartInvariant(products, lines) && p in products
    ensures CartInvariant(products, AddLine(lines, p, quantity))
    ensures AllPositive(lines) && quantity >= 1 ==> AllPositive(AddLine(lines, p, quantity))
  {
    match LineIndex(lines, p.id)
    case Some(i) => AdjustQuantity(products, lines, i, quantity);
    case None => AddNewLine(products, lines, p, quantity);
  }

  /** Adding makes the cart at most one line longer, keeps every existing
      line's place and id, and leaves every line of another product as it
      was, adding no other line. */
  lemma AddLineKeepsOthers(lines: seq<CartItem>, p: Product, quantity: int)
    ensures var r := AddLine(lines, p, quantity);
      && |lines| <= |r| <= |lines| + 1
      && (forall k :: 0 <= k < |lines| ==> r[k].id == lines[k].id)
      && (forall l :: l in lines && l.id != p.id ==> l in r)
      && (forall l :: l in r && l.id != p.id ==> l in lines)
  {
    match LineIndex(lines, p.id)
    case Some(i) =>
      var r := AddLine(lines, p, quantity);
      assert forall k :: 0 <= k < |lines| && k != i ==> r[k] == lines[k];
    case None =>
  }

  /** Adding `quantity` of `p` raises the units of `p` by `quantity` and
      leaves every other product's units alone. */
  lemma AddLineQuantity(lines: seq<CartItem>, p: Product, quantity: int, id: string)
    ensures QuantityOf(AddLine(lines, p, quantity), id)
            == QuantityOf(lines, id) + (if id == p.id then quantity else 0)
  {
    var lines' := AddLine(lines, p, quantity);
    match LineIndex(lines, p.id)
    case Some(i) =>
      LineIndexByIds(lines, lines', id);
      if id != p.id {
        var j := LineIndex(lines, id);
        assert j.Some? ==> j.value != i;
      }
    case None =>
      LineIndexAppend(lines, NewLine(p, quantity), id);
  }

  /** Adding `quantity` of a catalog product raises the subtotal by its
      price times `quantity`. */
  lemma AddLineSubtotal(products: seq<Product>, lines: seq<CartItem>, p: Product, quantity: int)
    requires CatalogShape(products) && CartInvariant(products, lines) && p in products
    ensures Subtotal(AddLine(lines, p, quantity)) == Subtotal(lines) + p.price * quantity as real
  {
    match LineIndex(lines, p.id)
    case Some(i) =>
      var l := lines[i];
      CatalogPrice(products, l, p);
      SubtotalAdjust(lines, i, quantity);
      assert AddLine(lines, p, quantity) == lines[i := l.(quantity := l.quantity + quantity)];
      assert l.price * quantity as real == p.price * quantity as real;
    case None =>
      SubtotalAppend(lines, p, quantity);
  }

  /** A line carries the catalog price of the product with its id. */
  lemma CatalogPrice(products: seq<Product>, l: CartItem, p: Product)
    requires CatalogShape(products) && FromCatalog(products, l) && p in products && l.id == p.id
    ensures l.price == p.price
  {
    var a :| 0 <= a < |products| && products[a] == Product(l.id, l.name, l.price);
    var b :| 0 <= b < |products| && products[b] == p;
    assert a == b;
  }

  /** Removing keeps the cart invariant and keeps every line positive. */
  lemma RemoveOneInvariant(products: seq<Product>, lines: seq<CartItem>, id: string)
    requires CartInvariant(products, lines) && LineIndex(lines, id).Some?
    ensures CartInvariant(products, RemoveOne(lines, id))
    ensures AllPositive(lines) ==> AllPositive(RemoveOne(lines, id))
  {
    var i := LineIndex(lines, id).value;
    if lines[i].quantity > 1 {
      AdjustQuantity(products, lines, i, -1);
    } else {
      DeleteLine(products, lines, i);
    }
  }

  /** Removing keeps the cart's length or shortens it by one line, and
      leaves every line of another product as it was, adding no other
      line. */
  lemma RemoveOneKeepsOthers(lines: seq<CartItem>, id: string)
    requires LineIndex(lines, id).Some?
    ensures var r := RemoveOne(lines, id);
      && (|r| == |lines| || |r| == |lines| - 1)
      && (forall l :: l in lines && l.id != id ==> l in r)
      && (forall l :: l in r && l.id != id ==> l in lines)
  {
    var i := LineIndex(lines, id).value;
    var r := RemoveOne(lines, id);
    if lines[i].quantity > 1 {
      assert forall k :: 0 <= k < |lines| && k != i ==> r[k] == lines[k];
    } else {
      assert lines == lines[..i] + [lines[i]] + lines[i + 1..];
    }
  }

  /** With one line per id, the product keeps its line exactly when it held
      more than one unit. */
  lemma RemoveOneDeletes(lines: seq<CartItem>, id: string)
    requires DistinctIds(lines) && LineIndex(lines, id).Some?
    ensures QuantityOf(lines, id) > 1 <==> LineIndex(RemoveOne(lines, id), id).Some?
  {
    var i := LineIndex(lines, id).value;
    if lines[i].quantity > 1 {
      LineIndexByIds(lines, RemoveOne(lines, id), id);
    } else {
      DeleteLineGone(lines, i);
    }
  }

  /** Removing takes one unit of `id` away, or all of them when at most one
      was left, and leaves every other product's units alone. */
  lemma RemoveOneQuantity(lines: seq<CartItem>, id: string, other: string)
    requires DistinctIds(lines) && LineIndex(lines, id).Some?
    ensures var q := QuantityOf(lines, id);
      QuantityOf(RemoveOne(lines, id), other)
      == if other != id then QuantityOf(lines, other) else if q > 1 then q - 1 else 0
  {
    var i := LineIndex(lines, id).value;
    var lines' := RemoveOne(lines, id);
    if lines[i].quantity > 1 {
      LineIndexByIds(lines, lines', other);
      var j := LineIndex(lines, other);
      assert other != id ==> j.None? || j.value != i;
    } else if other != id {
      LineIndexDelete(lines, i, other);
    } else {
      DeleteLineGone(lines, i);
    }
  }

  /** Removing takes the line's price off the subtotal when the line keeps
      some units, and the line's whole total when it is deleted. */
  lemma RemoveOneSubtotal(lines: seq<CartItem>, id: string)
    requires LineIndex(lines, id).Some?
    ensures var l := lines[LineIndex(lines, id).value];
      && (l.quantity > 1 ==> Subtotal(RemoveOne(lines, id)) == Subtotal(lines) - l.price)
      && (l.quantity <= 1 ==> Subtotal(RemoveOne(lines, id)) == Subtotal(lines) - LineTotal(l))
  {
    var i := LineIndex(lines, id).value;
    if lines[i].quantity > 1 {
      SubtotalAdjust(lines, i, -1);
    } else {
      SumDelete(lines, i, LineTotal);
    }
  }

  // ---------------------------------------------------------------------
  // Discount codes, matched case-insensitively over ASCII

  function LowerChar(c: char): char
  {
    if 'A' <= c <= 'Z' then (c as int + 32) as char else c
  }

  /** `toLowerCase()` restricted to ASCII letters. */
  function Lower(s: string): string
  {
    seq(|s|, k requires 0 <= k < |s| => LowerChar(s[k]))
  }

  function Applicable(code: string): DiscountCode -> bool
  {
    (d: DiscountCode) => Lower(d.code) == Lower(code) && !d.isUsed
  }

  /** The code `applyDiscount` picks: the first one equal to `code` up to
      case that no order has consumed. */
  function UsableIndex(codes: seq<DiscountCode>, code: string): (r: Option<nat>)
    ensures r.Some? ==> r.value < |codes| && Lower(codes[r.value].code) == Lower(code)
                        && !codes[r.value].isUsed
    ensures r.None? <==> forall k :: 0 <= k < |codes| ==>
                           Lower(codes[k].code) != Lower(code) || codes[k].isUsed
  {
    FirstIndex(codes, Applicable(code))
  }

  function Spells(code: string): DiscountCode -> bool
  {
    (d: DiscountCode) => d.code == code
  }

  /** The entry `createOrder` marks used: the first with exactly this code. */
  function CodeIndex(codes: seq<DiscountCode>, code: string): (r: Option<nat>)
    ensures r.Some? ==> r.value < |codes| && codes[r.value].code == code
    ensures r.Some? ==> forall k :: 0 <= k < r.value ==> codes[k].code != code
    ensures r.None? <==> forall k :: 0 <= k < |codes| ==> codes[k].code != code
  {
    FirstIndex(codes, Spells(code))
  }

  /** No two codes are equal up to case. */
  predicate DistinctCodes(codes: seq<DiscountCode>)
  {
    forall i, j :: 0 <= i < j < |codes| ==> Lower(codes[i].code) != Lower(codes[j].code)
  }

  /** With distinct codes, looking a code's own string up exactly finds that
      very entry, so `createOrder` marks the applied code and no other. */
  lemma CodeIndexFindsOwn(codes: seq<DiscountCode>, i: nat)
    requires DistinctCodes(codes) && i < |codes|
    ensures CodeIndex(codes, codes[i].code) == Some(i)
  {
    var r := CodeIndex(codes, codes[i].code);
    assert r.Some? && r.value <= i;
  }

  /** What the store keeps true of its codes: distinct up to case, and
      each percentage between 0 and 100. */
  predicate CodesInvariant(codes: seq<DiscountCode>)
  {
    DistinctCodes(codes) && forall k :: 0 <= k < |codes| ==> 0 <= codes[k].percentage <= 100
  }

  /** Marking entry `i` used keeps the codes distinct and changes nothing
      else about any entry. */
  lemma MarkUsed(codes: seq<DiscountCode>, i: nat)
    requires CodesInvariant(codes) && i < |codes|
    ensures var codes' := codes[i := codes[i].(isUsed := true)];
      && CodesInvariant(codes')
      && codes'[i].isUsed
      && forall k :: 0 <= k < |codes| ==> codes'[k].code == codes[k].code
                                          && codes'[k].percentage == codes[k].percentage
  {
  }

  /** Appending a code that differs up to case from every issued one keeps
      the codes distinct. */
  lemma AddCode(codes: seq<DiscountCode>, d: DiscountCode)
    requires CodesInvariant(codes) && 0 <= d.percentage <= 100
    requires forall k :: 0 <= k < |codes| ==> Lower(codes[k].code) != Lower(d.code)
    ensures CodesInvariant(codes + [d])
  {
    var codes' := codes + [d];
    forall a, b | 0 <= a < b < |codes'|
      ensures Lower(codes'[a].code) != Lower(codes'[b].code)
    {
      if b < |codes| {
        assert codes'[a] == codes[a] && codes'[b] == codes[b];
      }
    }
  }

  /** Once consumed, a code cannot be applied again under any spelling:
      its entry is used, and no other entry matches it up to case. */
  lemma UsedCodeRejected(codes: seq<DiscountCode>, i: nat, code: string)
    requires DistinctCodes(codes) && i < |codes| && codes[i].isUsed
    requires Lower(code) == Lower(codes[i].code)
    ensures UsableIndex(codes, code).None?
  {
    forall k | 0 <= k < |codes| && k != i
      ensures Lower(codes[k].code) != Lower(code)
    {
      assert k < i || i < k;
    }
  }

  /** A code `applyDiscount` accepts is one it finds among the unused codes. */
  lemma UsableIndexIff(codes: seq<DiscountCode>, code: string)
    ensures UsableIndex(codes, code).Some? <==>
            exists k :: 0 <= k < |codes| && Lower(codes[k].code) == Lower(code) && !codes[k].isUsed
  {
  }

  /** `uuidv4().substring(0, 8).toUpperCase()`: eight upper-case hex digits. */
  predicate IsSuffix(s: string)
  {
    |s| == 8 && forall k :: 0 <= k < |s| ==> '0' <= s[k] <= '9' || 'A' <= s[k] <= 'F'
  }

  /** The code the Nth-order rule issues for a given suffix. */
  function NewCode(suffix: string): (d: DiscountCode)
    requires IsSuffix(suffix)
    ensures |d.code| == |Save10Prefix| + 8 && d.code[..|Save10Prefix|] == Save10Prefix
    ensures d.percentage == 10 && !d.isUsed
  {
    DiscountCode(Save10Prefix + suffix, 10, false)
  }

  /** Whether the Nth-order rule fires for an order count (unforced). */
  predicate NthOrderDue(orderCount: nat)
  {
    orderCount != 0 && orderCount % NthOrder == 0
  }

  // ---------------------------------------------------------------------
  // The cart view

  function LineTotal(l: CartItem): real
  {
    l.price * l.quantity as real
  }

  /** Sum of price times quantity over the lines. */
  function Subtotal(lines: seq<CartItem>): real
  {
    Sum(lines, LineTotal)
  }

  /** `subtotal * (percentage / 100)` for an applied code, else 0. */
  function DiscountAmount(subtotal: real, applied: Option<DiscountCode>): real
  {
    match applied
    case None => 0.0
    case Some(d) => subtotal * (d.percentage as real / 100.0)
  }

  /** `appliedDiscountCode?.code || null`: an empty code string reads as null. */
  function Label(applied: Option<DiscountCode>): Option<string>
  {
    match applied
    case None => None
    case Some(d) => if d.code == "" then None else Some(d.code)
  }

  /** `getCartState`: the view derived from the lines and the applied code. */
  function View(lines: seq<CartItem>, applied: Option<DiscountCode>): Cart
  {
    var subtotal := Subtotal(lines);
    var discount := DiscountAmount(subtotal, applied);
    Cart(lines, subtotal, discount, subtotal - discount, Label(applied))
  }

  /** The view reads the applied code's string and percentage, never
      whether it was used. */
  lemma ViewIgnoresUse(lines: seq<CartItem>, d: DiscountCode)
    ensures View(lines, Some(d.(isUsed := true))) == View(lines, Some(d))
  {
  }

  /** Every line holds at least one unit: what the cart route's
      `quantity >= 1` check keeps true. */
  predicate AllPositive(lines: seq<CartItem>)
  {
    forall k :: 0 <= k < |lines| ==> lines[k].quantity >= 1
  }

  /** Every line has a non-negative price and quantity. */
  predicate NonNegative(lines: seq<CartItem>)
  {
    forall k :: 0 <= k < |lines| ==> lines[k].price >= 0.0 && lines[k].quantity >= 0
  }

  /** The view's money fields: the subtotal is the sum of the line totals,
      the total is the subtotal less the discount, and with percentage p the
      discount is exactly p% of the subtotal and the total the remaining
      (100 - p)%; without a code there is no discount. For lines with
      non-negative prices and quantities and a percentage from 0 to 100,
      discount and total both lie between 0 and the subtotal. */
  lemma ViewArithmetic(lines: seq<CartItem>, applied: Option<DiscountCode>)
    ensures var v := View(lines, applied);
      && v.items == lines
      && v.subtotal == Subtotal(lines)
      && v.total == v.subtotal - v.discountAmount
      && (applied.None? ==> v.discountAmount == 0.0 && v.total == v.subtotal)
      && (applied.Some? ==>
            v.discountAmount * 100.0 == v.subtotal * applied.value.percentage as real
            && v.total * 100.0 == v.subtotal * (100 - applied.value.percentage) as real)
    ensures NonNegative(lines) && (applied.Some? ==> 0 <= applied.value.percentage <= 100) ==>
      var v := View(lines, applied);
      && v.subtotal >= 0.0
      && 0.0 <= v.discountAmount <= v.subtotal
      && 0.0 <= v.total <= v.subtotal
  {
    if applied.Some? {
      PercentExact(Subtotal(lines), applied.value);
    }
    if NonNegative(lines) {
      SubtotalNonNegative(lines);
      if applied.Some? && 0 <= applied.value.percentage <= 100 {
        PercentOf(Subtotal(lines), applied.value);
      }
    }
  }

  /** Lines with non-negative prices and quantities have a non-negative
      subtotal. */
  lemma SubtotalNonNegative(lines: seq<CartItem>)
    requires NonNegative(lines)
    ensures Subtotal(lines) >= 0.0
  {
    forall k | 0 <= k < |lines| ensures LineTotal(lines[k]) >= 0.0 {
      assert lines[k].price >= 0.0 && lines[k].quantity as real >= 0.0;
    }
    SumNonNegative(lines, LineTotal);
  }

  /** A code's discount is exactly its percentage of the amount, and what
      remains exactly the rest, for any amount and percentage. */
  lemma PercentExact(s: real, c: DiscountCode)
    ensures var d := DiscountAmount(s, Some(c));
      && d * 100.0 == s * c.percentage as real
      && (s - d) * 100.0 == s * (100 - c.percentage) as real
  {
    var p := c.percentage;
    var q := p as real / 100.0;
    assert q * 100.0 == p as real;
    var d := s * q;
    assert DiscountAmount(s, Some(c)) == d;
    assert d * 100.0 == s * (q * 100.0);
    assert (s - d) * 100.0 == s * 100.0 - s * p as real;
  }

  /** On a non-negative amount, a discount of 0 to 100 percent and what
      remains both lie between 0 and the amount. */
  lemma PercentOf(s: real, c: DiscountCode)
    requires s >= 0.0 && 0 <= c.percentage <= 100
    ensures var d := DiscountAmount(s, Some(c));
      && 0.0 <= d <= s
      && 0.0 <= s - d <= s
  {
    var q := c.percentage as real / 100.0;
    assert 0.0 <= q <= 1.0;
    var d := s * q;
    assert DiscountAmount(s, Some(c)) == d;
    ProductNonNegative(s, q);
    assert s - d == s * (1.0 - q);
    ProductNonNegative(s, 1.0 - q);
  }

  lemma ProductNonNegative(x: real, y: real)
    requires x >= 0.0 && y >= 0.0
    ensures x * y >= 0.0
  {
  }

  /** Adding `delta` units to a line adds price times `delta` to its total. */
  lemma LineTotalShift(l: CartItem, delta: int)
    ensures LineTotal(l.(quantity := l.quantity + delta)) == LineTotal(l) + l.price * delta as real
  {
    var p, q, d := l.price, l.quantity as real, delta as real;
    assert (l.quantity + delta) as real == q + d;
    assert p * (q + d) == p * q + p * d;
  }

  /** A new line adds its price times quantity to the subtotal. */
  lemma SubtotalAppend(lines: seq<CartItem>, p: Product, quantity: int)
    ensures Subtotal(lines + [NewLine(p, quantity)]) == Subtotal(lines) + p.price * quantity as real
  {
    assert (lines + [NewLine(p, quantity)])[..|lines|] == lines;
  }

  // ---------------------------------------------------------------------
  // Admin aggregates

  function OrderTotal(o: Order): real { o.total }
  function OrderDiscount(o: Order): real { o.discountAmount }
  function OrderSubtotal(o: Order): real { o.subtotal }
  function LineQuantity(l: CartItem): int { l.quantity }
  function OrderQuantity(o: Order): int { Count(o.items, LineQuantity) }

  /** An order as `createOrder` builds it from a non-empty cart view. */
  predicate OrderConsistent(o: Order)
  {
    && |o.items| > 0
    && o.subtotal == Subtotal(o.items)
    && o.total == o.subtotal - o.discountAmount
  }

  /** What the store keeps true of its orders: distinct ids, each order
      consistent with its own snapshot. */
  predicate OrdersInvariant(orders: seq<Order>)
  {
    && (forall i, j :: 0 <= i < j < |orders| ==> orders[i].id != orders[j].id)
    && (forall k :: 0 <= k < |orders| ==> OrderConsistent(orders[k]))
  }

  /** Appending a consistent order under a new id keeps the invariant. */
  lemma AddOrder(orders: seq<Order>, o: Order)
    requires OrdersInvariant(orders) && OrderConsistent(o)
    requires forall k :: 0 <= k < |orders| ==> orders[k].id != o.id
    ensures OrdersInvariant(orders + [o])
  {
    var orders' := orders + [o];
    forall a, b | 0 <= a < b < |orders'|
      ensures orders'[a].id != orders'[b].id
    {
      if b < |orders| {
        assert orders'[a] == orders[a] && orders'[b] == orders[b];
      }
    }
  }

  /** Over consistent orders, revenue and discounts given add up to the
      subtotals: `totalAmount + totalDiscountAmount` is the gross. */
  lemma {:induction false} RevenuePlusDiscounts(orders: seq<Order>)
    requires forall k :: 0 <= k < |orders| ==> OrderConsistent(orders[k])
    ensures Sum(orders, OrderTotal) + Sum(orders, OrderDiscount) == Sum(orders, OrderSubtotal)
    decreases |orders|
  {
    if orders != [] {
      RevenuePlusDiscounts(orders[..|orders| - 1]);
      assert OrderConsistent(orders[|orders| - 1]);
    }
  }
}
