/** The point-of-sale terminal: product browsing, the cart being assembled,
    the tender, and the checkout that hands the cart to the store. */
module PosTerminal {
  import opened Collections
  import opened Text
  import opened Types
  import opened Pricing
  import App

  // ---------------------------------------------------------------------------
  // Product browsing

  /** The category buttons: every category, or one of them. */
  datatype CategoryFilter = All | Only(category: Category)

  predicate ProductMatches(p: Product, filter: CategoryFilter, search: string)
  {
    (filter.All? || p.category == filter.category) && Contains(Lower(p.name), Lower(search))
  }

  /** The product grid: the products in the chosen category whose name contains
      the search text, ignoring case, in catalogue order. */
  function FilteredProducts(products: seq<Product>, filter: CategoryFilter, search: string): (r: seq<Product>)
    ensures forall i :: 0 <= i < |r| ==> r[i] in products && ProductMatches(r[i], filter, search)
    ensures forall i :: 0 <= i < |products| ==> (products[i] in r <==> ProductMatches(products[i], filter, search))
    ensures Subsequence(r, products)
    ensures filter == All && search == "" ==> r == products
    ensures forall x {:trigger multiset(r)[x]} :: multiset(r)[x] == if ProductMatches(x, filter, search) then multiset(products)[x] else 0
  {
    Filter(products, (p: Product) => ProductMatches(p, filter, search))
  }

  // ---------------------------------------------------------------------------
  // Cart lines

  /** At most one line per product. */
  ghost predicate UniqueLines(lines: seq<CartItem>)
  {
    UniqueKeys(lines, LineId)
  }

  /** Every line asks for at least one unit. */
  ghost predicate PositiveLines(lines: seq<CartItem>)
  {
    forall i :: 0 <= i < |lines| ==> lines[i].quantity > 0
  }

  /** No line asks for more than the stock of the catalogue product it is for. */
  ghost predicate WithinStock(lines: seq<CartItem>, products: seq<Product>)
  {
    forall i, k :: 0 <= i < |lines| && 0 <= k < |products| && lines[i].product.id == products[k].id ==>
      lines[i].quantity <= products[k].stock
  }

  function IncrementLine(lines: seq<CartItem>, id: string): (r: seq<CartItem>)
    ensures |r| == |lines|
  {
    seq(|lines|, i requires 0 <= i < |lines| =>
      if lines[i].product.id == id then lines[i].(quantity := lines[i].quantity + 1) else lines[i])
  }

  /** The cart after the product's tile is pressed. */
  function CartAfterAdd(lines: seq<CartItem>, product: Product): seq<CartItem>
  {
    if product.stock <= 0 then lines
    else
      match FindLine(lines, product.id)
      case Some(existing) =>
        if existing.quantity >= product.stock then lines else IncrementLine(lines, product.id)
      case None => lines + [CartItem(product, 1)]
  }

  lemma FindLineAt(lines: seq<CartItem>, i: int)
    requires UniqueLines(lines) && 0 <= i < |lines|
    ensures FindLine(lines, lines[i].product.id) == Some(lines[i])
  {
    var r := FindLine(lines, lines[i].product.id);
    var j :| 0 <= j < |lines| && lines[j] == r.value && lines[j].product.id == lines[i].product.id &&
             forall m :: 0 <= m < j ==> lines[m].product.id != lines[i].product.id;
    assert LineId(lines[j]) == LineId(lines[i]);
  }

  /** Adding a product that already has a line: at or over the stock cap, or
      with nothing in stock, the cart is unchanged; otherwise that line alone
      gains one unit (and the total its unit price), keeping the order. */
  lemma AddToCartExisting(lines: seq<CartItem>, product: Product, i: int)
    requires UniqueLines(lines) && 0 <= i < |lines| && lines[i].product.id == product.id
    ensures product.stock <= 0 || lines[i].quantity >= product.stock ==> CartAfterAdd(lines, product) == lines
    ensures 0 < product.stock && lines[i].quantity < product.stock ==>
              CartAfterAdd(lines, product) == lines[i := lines[i].(quantity := lines[i].quantity + 1)] &&
              Total(CartAfterAdd(lines, product)) == Total(lines) + lines[i].product.price
  {
    FindLineAt(lines, i);
    if 0 < product.stock && lines[i].quantity < product.stock {
      var x := lines[i].(quantity := lines[i].quantity + 1);
      var r := CartAfterAdd(lines, product);
      assert r == lines[i := x] by {
        forall j | 0 <= j < |lines| ensures r[j] == lines[i := x][j] {
          if j != i {
            assert LineId(lines[j]) != LineId(lines[i]);
          }
        }
      }
      TotalOfUpdate(lines, i, x);
      assert LineAmount(x) == LineAmount(lines[i]) + lines[i].product.price by {
        assert x.product.price * (lines[i].quantity + 1) ==
               x.product.price * lines[i].quantity + x.product.price;
      }
    }
  }

  /** Changing one line changes the total by the difference of the two line amounts. */
  lemma {:induction false} TotalOfUpdate(lines: seq<CartItem>, i: int, x: CartItem)
    requires 0 <= i < |lines|
    ensures Total(lines[i := x]) == Total(lines) - LineAmount(lines[i]) + LineAmount(x)
  {
    if i > 0 {
      TotalOfUpdate(lines[1..], i - 1, x);
      assert lines[i := x][1..] == lines[1..][i - 1 := x];
    } else {
      assert lines[i := x][1..] == lines[1..];
    }
  }

  /** Adding a product with no line yet appends a line for one unit at the end
      (raising the total by its price), unless it is out of stock. */
  lemma AddToCartNew(lines: seq<CartItem>, product: Product)
    requires !HasKey(lines, LineId, product.id)
    ensures CartAfterAdd(lines, product) == if product.stock <= 0 then lines else lines + [CartItem(product, 1)]
    ensures product.stock > 0 ==> Total(CartAfterAdd(lines, product)) == Total(lines) + product.price
  {
    if product.stock > 0 {
      assert FindLine(lines, product.id).None? by {
        forall i | 0 <= i < |lines| ensures lines[i].product.id != product.id {
          assert LineId(lines[i]) != product.id;
        }
      }
      TotalOfAppend(lines, [CartItem(product, 1)]);
      var x := CartItem(product, 1);
      assert Total([x]) == LineAmount(x) + Total([x][1..]);
      assert [x][1..] == [];
    }
  }

  /** `product` is the catalogue entry with that id, in a unique-id catalogue. */
  ghost predicate Listed(product: Product, products: seq<Product>)
  {
    UniqueKeys(products, ProductId) && product in products
  }

  /** In a unique-id catalogue, the entry with the id of a listed product is that product. */
  lemma ListedIsTheEntry(product: Product, products: seq<Product>, k: int)
    requires Listed(product, products) && 0 <= k < |products| && products[k].id == product.id
    ensures products[k] == product
  {
    var m :| 0 <= m < |products| && products[m] == product;
    assert ProductId(products[m]) == ProductId(products[k]);
  }

  /** Adding to the cart keeps one line per product and positive quantities;
      and when the product is from the (unique-id) catalogue, it keeps every
      line within its product's stock. */
  lemma AddToCartKeepsInvariants(lines: seq<CartItem>, product: Product, products: seq<Product>)
    requires UniqueLines(lines) && PositiveLines(lines)
    ensures UniqueLines(CartAfterAdd(lines, product)) && PositiveLines(CartAfterAdd(lines, product))
    ensures WithinStock(lines, products) && Listed(product, products) ==>
              WithinStock(CartAfterAdd(lines, product), products)
  {
    if HasKey(lines, LineId, product.id) {
      var i :| 0 <= i < |lines| && LineId(lines[i]) == product.id;
      AddToCartExisting(lines, product, i);
      AddExistingWithinStock(lines, product, products, i);
    } else {
      AddToCartNew(lines, product);
      AddNewKeepsInvariants(lines, product, products);
    }
  }

  lemma AddExistingWithinStock(lines: seq<CartItem>, product: Product, products: seq<Product>, i: int)
    requires 0 <= i < |lines| && lines[i].product.id == product.id
    requires CartAfterAdd(lines, product) == lines ||
             (lines[i].quantity < product.stock &&
              CartAfterAdd(lines, product) == lines[i := lines[i].(quantity := lines[i].quantity + 1)])
    ensures WithinStock(lines, products) && Listed(product, products) ==>
              WithinStock(CartAfterAdd(lines, product), products)
  {
    var r := CartAfterAdd(lines, product);
    if WithinStock(lines, products) && Listed(product, products) && r != lines {
      forall j, k | 0 <= j < |r| && 0 <= k < |products| && r[j].product.id == products[k].id
        ensures r[j].quantity <= products[k].stock
      {
        if j == i {
          ListedIsTheEntry(product, products, k);
        }
      }
    }
  }

  lemma AddNewKeepsInvariants(lines: seq<CartItem>, product: Product, products: seq<Product>)
    requires UniqueLines(lines) && PositiveLines(lines) && !HasKey(lines, LineId, product.id)
    requires CartAfterAdd(lines, product) == lines || CartAfterAdd(lines, product) == lines + [CartItem(product, 1)]
    requires CartAfterAdd(lines, product) != lines ==> product.stock > 0
    ensures UniqueLines(CartAfterAdd(lines, product)) && PositiveLines(CartAfterAdd(lines, product))
    ensures WithinStock(lines, products) && Listed(product, products) ==>
              WithinStock(CartAfterAdd(lines, product), products)
  {
    var r := CartAfterAdd(lines, product);
    if r != lines {
      forall j, k | 0 <= j < k < |r| ensures LineId(r[j]) != LineId(r[k]) {
        if k == |lines| {
          assert LineId(lines[j]) != product.id;
        } else {
          assert r[j] == lines[j] && r[k] == lines[k];
        }
      }
      if WithinStock(lines, products) && Listed(product, products) {
        forall j, k | 0 <= j < |r| && 0 <= k < |products| && r[j].product.id == products[k].id
          ensures r[j].quantity <= products[k].stock
        {
          if j == |lines| {
            ListedIsTheEntry(product, products, k);
          } else {
            assert r[j] == lines[j];
          }
        }
      }
    }
  }

  /** The upper bound for a line's quantity: the catalogue stock of its
      product, or its current quantity when the product is no longer listed. */
  function MaxStock(products: seq<Product>, item: CartItem): int
  {
    match FindProduct(products, item.product.id)
    case Some(p) => p.stock
    case None => item.quantity
  }

  /** `Math.max(0, Math.min(q + delta, maxStock))`. */
  function ClampQuantity(q: int, delta: int, maxStock: int): (r: int)
    ensures r >= 0
    ensures r <= maxStock || r == 0
    ensures 0 <= q + delta <= maxStock ==> r == q + delta
    ensures r == 0 <==> q + delta <= 0 || maxStock <= 0
    ensures q + delta >= maxStock > 0 ==> r == maxStock
  {
    Max(0, Min(q + delta, maxStock))
  }

  function AdjustLine(item: CartItem, products: seq<Product>, id: string, delta: int): CartItem
  {
    if item.product.id == id
    then item.(quantity := ClampQuantity(item.quantity, delta, MaxStock(products, item)))
    else item
  }

  predicate IsPositiveLine(item: CartItem) { item.quantity > 0 }

  /** Every line with its quantity moved, the emptied ones still in place. */
  function AdjustLines(lines: seq<CartItem>, products: seq<Product>, id: string, delta: int): (r: seq<CartItem>)
    ensures |r| == |lines|
    ensures forall i :: 0 <= i < |r| ==> r[i] == AdjustLine(lines[i], products, id, delta)
  {
    seq(|lines|, i requires 0 <= i < |lines| => AdjustLine(lines[i], products, id, delta))
  }

  /** The cart after the line's + or - button: the line's quantity moves by
      `delta` within [0, stock], and lines left at zero are dropped. */
  function CartAfterUpdate(lines: seq<CartItem>, products: seq<Product>, id: string, delta: int): (r: seq<CartItem>)
    ensures PositiveLines(r)
    ensures |r| <= |lines|
  {
    Filter(AdjustLines(lines, products, id, delta), IsPositiveLine)
  }

  /** The new quantity the + or - button gives the line at `i`. */
  function UpdatedQuantity(lines: seq<CartItem>, products: seq<Product>, delta: int, i: int): int
    requires 0 <= i < |lines|
  {
    ClampQuantity(lines[i].quantity, delta, MaxStock(products, lines[i]))
  }

  /** Updating a line of a well-formed cart changes that line alone, in place,
      or removes it when its quantity reaches zero. */
  lemma UpdateQuantityExisting(lines: seq<CartItem>, products: seq<Product>, id: string, delta: int, i: int)
    requires UniqueLines(lines) && PositiveLines(lines) && 0 <= i < |lines| && lines[i].product.id == id
    ensures var q := UpdatedQuantity(lines, products, delta, i);
            CartAfterUpdate(lines, products, id, delta) ==
              if q > 0 then lines[i := lines[i].(quantity := q)] else lines[..i] + lines[i + 1..]
  {
    var q := UpdatedQuantity(lines, products, delta, i);
    var x := lines[i].(quantity := q);
    var adjusted := AdjustLines(lines, products, id, delta);
    assert adjusted == lines[i := x] by {
      forall j | 0 <= j < |lines| ensures adjusted[j] == lines[i := x][j] {
        if j != i {
          assert LineId(lines[j]) != LineId(lines[i]);
        }
      }
    }
    if q > 0 {
      assert forall j :: 0 <= j < |adjusted| ==> IsPositiveLine(adjusted[j]);
    } else {
      FilterDropsOne(adjusted, IsPositiveLine, i);
      assert adjusted[..i] == lines[..i] && adjusted[i + 1..] == lines[i + 1..];
    }
  }

  /** Updating a product that has no line leaves a well-formed cart unchanged. */
  lemma UpdateQuantityAbsent(lines: seq<CartItem>, products: seq<Product>, id: string, delta: int)
    requires PositiveLines(lines) && !HasKey(lines, LineId, id)
    ensures CartAfterUpdate(lines, products, id, delta) == lines
  {
    var adjusted := AdjustLines(lines, products, id, delta);
    assert adjusted == lines by {
      forall j | 0 <= j < |lines| ensures adjusted[j] == lines[j] {
        assert LineId(lines[j]) != id;
      }
    }
  }

  /** A line left with units after the + or - button is within the stock of
      the (unique-id) catalogue product it is for. */
  lemma AdjustLineWithinStock(item: CartItem, products: seq<Product>, id: string, delta: int, k: int)
    requires UniqueKeys(products, ProductId) && 0 <= k < |products|
    requires item.product.id == products[k].id ==> item.quantity <= products[k].stock
    ensures var a := AdjustLine(item, products, id, delta);
            a.quantity > 0 && a.product.id == products[k].id ==> a.quantity <= products[k].stock
  {
    if item.product.id == id == products[k].id {
      var found := FindProduct(products, id);
      assert found.Some?;
      var m :| 0 <= m < |products| && products[m] == found.value && products[m].id == id;
      assert ProductId(products[m]) == ProductId(products[k]);
    }
  }

  /** Updating keeps one line per product, and (with a unique-id catalogue)
      keeps every line within its product's stock. */
  lemma UpdateQuantityKeepsInvariants(lines: seq<CartItem>, products: seq<Product>, id: string, delta: int)
    requires UniqueLines(lines)
    ensures UniqueLines(CartAfterUpdate(lines, products, id, delta))
    ensures WithinStock(lines, products) && UniqueKeys(products, ProductId) ==>
              WithinStock(CartAfterUpdate(lines, products, id, delta), products)
  {
    var adjusted := AdjustLines(lines, products, id, delta);
    var r := CartAfterUpdate(lines, products, id, delta);
    assert UniqueLines(adjusted) by {
      forall j, k | 0 <= j < k < |adjusted| ensures LineId(adjusted[j]) != LineId(adjusted[k]) {
        assert LineId(lines[j]) != LineId(lines[k]);
      }
    }
    SubsequenceKeepsUniqueKeys(r, adjusted, LineId);
    if WithinStock(lines, products) && UniqueKeys(products, ProductId) {
      forall j, k | 0 <= j < |r| && 0 <= k < |products| && r[j].product.id == products[k].id
        ensures r[j].quantity <= products[k].stock
      {
        assert r[j] in adjusted;
        var m :| 0 <= m < |adjusted| && adjusted[m] == r[j];
        AdjustLineWithinStock(lines[m], products, id, delta, k);
      }
    }
  }

  // ---------------------------------------------------------------------------
  // Tender and the Complete Sale button

  /** The enabling condition of the Complete Sale button as written: it is
      disabled for an empty cart, a positive but short tender, or a zero
      tender. */
  predicate CompleteSaleEnabledAsWritten(lines: seq<CartItem>, given: int)
  {
    !(|lines| == 0 || (given > 0 && TerminalChangeDue(given, Total(lines)) < 0) || (given == 0 && |lines| > 0))
  }

  /** The evidently intended condition: a non-empty cart and a positive tender
      that covers the total. */
  predicate CompleteSaleEnabled(lines: seq<CartItem>, given: int)
  {
    |lines| > 0 && given > 0 && given >= Total(lines)
  }

  /** For a tender that is not negative, the written button condition is
      exactly the intended one. */
  lemma CompleteSaleGuardsAgree(lines: seq<CartItem>, given: int)
    requires given >= 0
    ensures CompleteSaleEnabledAsWritten(lines, given) <==> CompleteSaleEnabled(lines, given)
  {
  }

  /** A negative tender (the number field accepts "-5") enables the written
      button for any non-empty cart, although nothing has been paid. */
  lemma NegativeTenderEnablesSale(lines: seq<CartItem>, given: int)
    requires |lines| > 0 && given < 0
    ensures CompleteSaleEnabledAsWritten(lines, given) && !CompleteSaleEnabled(lines, given)
  {
  }

  /** Whenever the sale may be completed, the balance shown is not negative and
      is the change the store will record. */
  lemma EnabledSaleChangeAgrees(lines: seq<CartItem>, given: int)
    requires CompleteSaleEnabled(lines, given)
    ensures TerminalChangeDue(given, Total(lines)) == RecordedChangeDue(given, Total(lines)) >= 0
  {
    ChangeDueAgrees(given, Total(lines));
  }

  // ---------------------------------------------------------------------------
  // Checkout meets the store

  /** With one line per product and every line within stock, the store's
      floored decrement is an exact subtraction for every purchased product. */
  lemma CheckoutSubtractsExactly(products: seq<Product>, items: seq<CartItem>)
    requires UniqueLines(items)
    ensures WithinStock(items, products) ==>
            forall k, i :: 0 <= k < |products| && 0 <= i < |items| && items[i].product.id == products[k].id ==>
              App.StockAfterSale(products, items)[k].stock == products[k].stock - items[i].quantity
  {
  }

  /** The receipt the terminal keeps to print after a sale. */
  datatype Receipt = Receipt(
    id: string,
    timestamp: int,
    items: seq<CartItem>,
    total: int,
    given: int,
    change: int,
    profit: int,
    salesman: string,
    customer: string)

  /** The customer handed to the store: none for a walk-in. */
  function CustomerRef(selected: string): Option<string>
  {
    if selected == "" then None else Some(selected)
  }

  /** The receipt snapshot: the lines, their total and profit, the tender and
      the balance shown, and the salesman and customer names with their
      fall-backs. */
  function ReceiptOf(id: string, timestamp: int, lines: seq<CartItem>, given: int, salesmen: seq<Salesman>,
                     customers: seq<Customer>, salesmanId: string, customerId: string): Receipt
  {
    var total := Total(lines);
    Receipt(id, timestamp, lines, total, given, TerminalChangeDue(given, total), Profit(lines),
            OrDefault(SalesmanName(salesmen, salesmanId), "Unknown"),
            OrDefault(CustomerName(customers, customerId), "Walk-in"))
  }

  /** `enforceSalesman?.id || salesmen[0]?.id || ''`. */
  function InitialSalesmanId(salesmen: seq<Salesman>, enforced: Option<Salesman>): string
  {
    if enforced.Some? && enforced.value.id != "" then enforced.value.id
    else if |salesmen| > 0 then salesmen[0].id
    else ""
  }

  class Cart {
    var items: seq<CartItem>
    /** The parsed tender; the empty field reads as 0. */
    var amountGiven: int
    var selectedSalesmanId: string
    /** "" stands for a walk-in customer. */
    var selectedCustomerId: string
    var lastSale: Option<Receipt>

    /** One line per product, none of them empty, and a receipt is shown only
        over an empty cart. */
    ghost predicate Valid()
      reads this
    {
      UniqueLines(items) && PositiveLines(items) && (lastSale.Some? ==> items == [])
    }

    constructor (salesmen: seq<Salesman>, enforced: Option<Salesman>)
      ensures Valid()
      ensures items == [] && amountGiven == 0 && selectedCustomerId == "" && lastSale == None
      ensures selectedSalesmanId == InitialSalesmanId(salesmen, enforced)
    {
      items := [];
      amountGiven := 0;
      selectedSalesmanId := InitialSalesmanId(salesmen, enforced);
      selectedCustomerId := "";
      lastSale := None;
    }

    /** The product tile: adds one unit, capped by the product's stock; the
        last receipt is dismissed unless the product is out of stock. */
    method AddToCart(product: Product)
      requires Valid()
      modifies this
      ensures Valid()
      ensures items == CartAfterAdd(old(items), product)
      ensures lastSale == if product.stock <= 0 then old(lastSale) else None
      ensures amountGiven == old(amountGiven) && selectedSalesmanId == old(selectedSalesmanId)
      ensures selectedCustomerId == old(selectedCustomerId)
    {
      if product.stock <= 0 {
        return;
      }
      AddToCartKeepsInvariants(items, product, []);
      lastSale := None;
      items := CartAfterAdd(items, product);
    }

    /** A line's + or - button, bounded by the catalogue stock in `products`. */
    method UpdateQuantity(products: seq<Product>, productId: string, delta: int)
      requires Valid()
      modifies this
      ensures Valid()
      ensures items == CartAfterUpdate(old(items), products, productId, delta)
      ensures WithinStock(old(items), products) && UniqueKeys(products, ProductId) ==> WithinStock(items, products)
      ensures amountGiven == old(amountGiven) && selectedSalesmanId == old(selectedSalesmanId)
      ensures selectedCustomerId == old(selectedCustomerId) && lastSale == old(lastSale)
    {
      UpdateQuantityKeepsInvariants(items, products, productId, delta);
      if items == [] {
        assert CartAfterUpdate(items, products, productId, delta) == [];
      }
      items := CartAfterUpdate(items, products, productId, delta);
    }

    /** The Clear button: empties the cart and dismisses the receipt. */
    method Clear()
      requires Valid()
      modifies this
      ensures Valid()
      ensures items == [] && lastSale == None
      ensures amountGiven == old(amountGiven) && selectedSalesmanId == old(selectedSalesmanId)
      ensures selectedCustomerId == old(selectedCustomerId)
    {
      items := [];
      lastSale := None;
    }

    /** The New Order button on the receipt screen: dismisses the receipt. */
    method NewOrder()
      requires Valid()
      modifies this
      ensures Valid()
      ensures lastSale == None
      ensures items == old(items) && amountGiven == old(amountGiven)
      ensures selectedSalesmanId == old(selectedSalesmanId) && selectedCustomerId == old(selectedCustomerId)
    {
      lastSale := None;
    }

    /** The tender field or one of its quick-amount buttons. */
    method SetAmountGiven(amount: int)
      requires Valid()
      modifies this
      ensures Valid()
      ensures amountGiven == amount
      ensures items == old(items) && lastSale == old(lastSale)
      ensures selectedSalesmanId == old(selectedSalesmanId) && selectedCustomerId == old(selectedCustomerId)
    {
      amountGiven := amount;
    }

    method SelectSalesman(id: string)
      requires Valid()
      modifies this
      ensures Valid()
      ensures selectedSalesmanId == id
      ensures items == old(items) && lastSale == old(lastSale)
      ensures amountGiven == old(amountGiven) && selectedCustomerId == old(selectedCustomerId)
    {
      selectedSalesmanId := id;
    }

    method SelectCustomer(id: string)
      requires Valid()
      modifies this
      ensures Valid()
      ensures selectedCustomerId == id
      ensures items == old(items) && lastSale == old(lastSale)
      ensures amountGiven == old(amountGiven) && selectedSalesmanId == old(selectedSalesmanId)
    {
      selectedCustomerId := id;
    }

    /** The checkout's effect on the terminal and on the store: the receipt is
        kept, the store records the sale, and the cart, tender and customer are
        reset. The receipt and the recorded sale each carry their own reading
        of the clock. */
    twostate predicate CheckedOut(store: App.Store, receiptId: string, saleId: string, receiptTime: int, saleTime: int)
      reads this, store
    {
      var lines := old(items);
      var total := Total(lines);
      var given := old(amountGiven);
      var customerId := CustomerRef(old(selectedCustomerId));
      && lastSale == Some(ReceiptOf(receiptId, receiptTime, lines, given, old(store.salesmen), old(store.customers),
                                    old(selectedSalesmanId), old(selectedCustomerId)))
      && items == [] && amountGiven == 0 && selectedCustomerId == ""
      && selectedSalesmanId == old(selectedSalesmanId)
      && store.products == App.StockAfterSale(old(store.products), lines)
      && store.customers == App.CreditLoyalty(old(store.customers), customerId, total)
      && store.salesHistory == App.RecordSale(old(store.salesHistory),
           Sale(saleId, saleTime, lines, total, given, RecordedChangeDue(given, total), Profit(lines),
                customerId, old(selectedSalesmanId), Cash))
      && store.salesmen == old(store.salesmen)
    }

    /** Nothing changed, on the terminal or in the store. */
    twostate predicate Untouched(store: App.Store)
      reads this, store
    {
      && items == old(items) && amountGiven == old(amountGiven) && lastSale == old(lastSale)
      && selectedSalesmanId == old(selectedSalesmanId) && selectedCustomerId == old(selectedCustomerId)
      && store.products == old(store.products) && store.customers == old(store.customers)
      && store.salesmen == old(store.salesmen) && store.salesHistory == old(store.salesHistory)
    }

    /** The checkout handler: refuses an empty cart or a missing salesman;
        otherwise records the sale. With every line within the catalogue
        stock, each purchased product's stock drops by exactly the quantity. */
    method Checkout(store: App.Store, receiptId: string, saleId: string, receiptTime: int, saleTime: int) returns (done: bool)
      requires Valid()
      modifies this, store
      ensures Valid()
      ensures done <==> old(items) != [] && old(selectedSalesmanId) != ""
      ensures done ==> CheckedOut(store, receiptId, saleId, receiptTime, saleTime)
      ensures !done ==> Untouched(store)
      ensures done && WithinStock(old(items), old(store.products)) ==>
                forall k, i :: 0 <= k < |store.products| && 0 <= i < |old(items)| &&
                               old(items)[i].product.id == old(store.products)[k].id ==>
                  store.products[k].stock == old(store.products)[k].stock - old(items)[i].quantity
    {
      if items == [] || selectedSalesmanId == "" {
        return false;
      }
      lastSale := Some(ReceiptOf(receiptId, receiptTime, items, amountGiven, store.salesmen, store.customers,
                                 selectedSalesmanId, selectedCustomerId));
      ghost var lines, before := items, store.products;
      store.Checkout(items, Total(items), amountGiven, selectedSalesmanId, CustomerRef(selectedCustomerId),
                     saleId, saleTime);
      CheckoutSubtractsExactly(before, lines);
      items := [];
      amountGiven := 0;
      selectedCustomerId := "";
      done := true;
    }

    /** The Complete Sale button, with the intended enabling condition. */
    method CompleteSale(store: App.Store, receiptId: string, saleId: string, receiptTime: int, saleTime: int) returns (done: bool)
      requires Valid()
      modifies this, store
      ensures Valid()
      ensures done <==> CompleteSaleEnabled(old(items), old(amountGiven)) && old(selectedSalesmanId) != ""
      ensures done ==> CheckedOut(store, receiptId, saleId, receiptTime, saleTime)
      ensures done ==> lastSale.value.change == store.salesHistory[0].changeDue >= 0
      ensures !done ==> Untouched(store)
    {
      if !CompleteSaleEnabled(items, amountGiven) {
        return false;
      }
      EnabledSaleChangeAgrees(items, amountGiven);
      done := Checkout(store, receiptId, saleId, receiptTime, saleTime);
    }
  }
}
