/** The application store: the product, customer, staff and sales-history
    collections, and the handlers that update them (recording a sale, and
    creating, updating and deleting staff and products). */
module App {
  import opened Collections
  import opened Types
  import opened Pricing

  /** A product after a sale: the first cart line with its id lowers its stock. */
  function AfterPurchase(p: Product, items: seq<CartItem>): Product
  {
    match FindLine(items, p.id)
    case Some(it) => p.(stock := Max(0, p.stock - it.quantity))
    case None => p
  }

  /** The product list after a sale: each purchased product's stock is lowered
      by the quantity bought, floored at zero. */
  function StockAfterSale(products: seq<Product>, items: seq<CartItem>): (r: seq<Product>)
    // same length, same order, and only stock levels change
    ensures |r| == |products|
    ensures forall k :: 0 <= k < |r| ==> r[k].(stock := products[k].stock) == products[k]
    // products nobody bought are untouched
    ensures forall k :: 0 <= k < |r| && !HasKey(items, LineId, products[k].id) ==> r[k] == products[k]
    // a purchased product never goes below zero
    ensures forall k :: 0 <= k < |r| && HasKey(items, LineId, products[k].id) ==> r[k].stock >= 0
    // with one line per product, the stock drops by that line's quantity, floored at zero
    ensures UniqueKeys(items, LineId) ==>
              forall k, i :: 0 <= k < |r| && 0 <= i < |items| && items[i].product.id == products[k].id ==>
                r[k].stock == Max(0, products[k].stock - items[i].quantity)
  {
    var r := seq(|products|, k requires 0 <= k < |products| => AfterPurchase(products[k], items));
    assert forall k :: 0 <= k < |r| ==>
      (HasKey(items, LineId, products[k].id) <==> FindLine(items, products[k].id).Some?);
    r
  }

  /** Whether a sale attributed to `customerId` earns points for the customer
      with id `id`: there must be a (non-empty) customer id, and it must match. */
  predicate Credits(customerId: Option<string>, id: string)
  {
    customerId.Some? && customerId.value != "" && customerId.value == id
  }

  /** The customer list after a sale: the customer it was made for gains
      `floor(total * 0.01)` points; everybody else is unchanged. */
  function CreditLoyalty(customers: seq<Customer>, customerId: Option<string>, total: int): (r: seq<Customer>)
    ensures |r| == |customers|
    ensures forall k :: 0 <= k < |r| ==> r[k].(points := customers[k].points) == customers[k]
    ensures forall k :: 0 <= k < |r| ==>
              r[k].points == customers[k].points + (if Credits(customerId, customers[k].id) then LoyaltyPoints(total) else 0)
    ensures customerId.None? || customerId == Some("") ==> r == customers
  {
    if customerId.Some? && customerId.value != "" then
      seq(|customers|, k requires 0 <= k < |customers| =>
        if customers[k].id == customerId.value
        then customers[k].(points := customers[k].points + LoyaltyPoints(total))
        else customers[k])
    else customers
  }

  function CustomerPoints(c: Customer): int { c.points }

  /** Points held by all customers together. */
  function TotalPoints(customers: seq<Customer>): int { SumOf(customers, CustomerPoints) }

  /** With unique customer ids, a sale for a known customer adds exactly
      `floor(total * 0.01)` points across the whole customer list. */
  lemma {:induction false} CreditLoyaltyTotal(customers: seq<Customer>, id: string, total: int)
    requires UniqueKeys(customers, CustomerId) && id != ""
    ensures TotalPoints(CreditLoyalty(customers, Some(id), total)) ==
            TotalPoints(customers) + (if HasKey(customers, CustomerId, id) then LoyaltyPoints(total) else 0)
  {
    if customers != [] {
      var tail := customers[1..];
      assert UniqueKeys(tail, CustomerId) by {
        forall i, j | 0 <= i < j < |tail| ensures tail[i].id != tail[j].id {
          assert tail[i] == customers[i + 1] && tail[j] == customers[j + 1];
        }
      }
      CreditLoyaltyTotal(tail, id, total);
      var r := CreditLoyalty(customers, Some(id), total);
      assert r[1..] == CreditLoyalty(tail, Some(id), total);
      assert HasKey(customers, CustomerId, id) <==> customers[0].id == id || HasKey(tail, CustomerId, id) by {
        if HasKey(customers, CustomerId, id) && customers[0].id != id {
          var i :| 0 <= i < |customers| && customers[i].id == id;
          assert tail[i - 1] == customers[i];
        }
        if HasKey(tail, CustomerId, id) {
          var i :| 0 <= i < |tail| && tail[i].id == id;
          assert customers[i + 1] == tail[i];
        }
      }
      if customers[0].id == id {
        assert !HasKey(tail, CustomerId, id) by {
          forall i | 0 <= i < |tail| ensures tail[i].id != id {
            assert tail[i] == customers[i + 1];
          }
        }
      }
    }
  }

  /** The sales history after a sale: the new sale goes in front. */
  function RecordSale(history: seq<Sale>, sale: Sale): (r: seq<Sale>)
    ensures |r| == |history| + 1 && r[0] == sale && r[1..] == history
  {
    [sale] + history
  }

  /** The history after recording `sales` one after another, oldest first. */
  function RecordSales(history: seq<Sale>, sales: seq<Sale>): seq<Sale>
    decreases |sales|
  {
    if sales == [] then history else RecordSales(RecordSale(history, sales[0]), sales[1..])
  }

  /** After N sales the history has grown by N, the newest sale is first, the
      sales appear newest to oldest, and the old history follows them. */
  lemma {:induction false} RecordSalesNewestFirst(history: seq<Sale>, sales: seq<Sale>)
    ensures |RecordSales(history, sales)| == |history| + |sales|
    ensures forall i :: 0 <= i < |sales| ==> RecordSales(history, sales)[i] == sales[|sales| - 1 - i]
    ensures RecordSales(history, sales)[|sales|..] == history
    decreases |sales|
  {
    if sales != [] {
      var h := RecordSale(history, sales[0]);
      RecordSalesNewestFirst(h, sales[1..]);
      var r := RecordSales(history, sales);
      assert r == RecordSales(h, sales[1..]);
      forall i | 0 <= i < |sales| ensures r[i] == sales[|sales| - 1 - i] {
        if i < |sales| - 1 {
          assert r[i] == sales[1..][|sales| - 2 - i];
        } else {
          assert r[|sales| - 1..] == h;
        }
      }
      assert r[|sales|..] == r[|sales| - 1..][1..];
    }
  }

  class Store {
    var products: seq<Product>
    var customers: seq<Customer>
    var salesmen: seq<Salesman>
    var salesHistory: seq<Sale>

    /** The collections as loaded at start-up. */
    constructor (products: seq<Product>, customers: seq<Customer>, salesmen: seq<Salesman>, salesHistory: seq<Sale>)
      ensures this.products == products && this.customers == customers
      ensures this.salesmen == salesmen && this.salesHistory == salesHistory
    {
      this.products := products;
      this.customers := customers;
      this.salesmen := salesmen;
      this.salesHistory := salesHistory;
    }

    /** Records a sale: lowers stock, credits loyalty points, and puts the new
        sale at the head of the history. */
    method Checkout(items: seq<CartItem>, total: int, amountGiven: int, salesmanId: string,
                    customerId: Option<string>, saleId: string, timestamp: int)
      modifies this
      ensures products == StockAfterSale(old(products), items)
      ensures customers == CreditLoyalty(old(customers), customerId, total)
      ensures salesHistory == RecordSale(old(salesHistory),
                Sale(saleId, timestamp, items, total, amountGiven, RecordedChangeDue(amountGiven, total),
                     Profit(items), customerId, salesmanId, Cash))
      ensures salesmen == old(salesmen)
    {
      var saleProfit := Profit(items);
      products := StockAfterSale(products, items);
      if customerId.Some? && customerId.value != "" {
        customers := CreditLoyalty(customers, customerId, total);
      }
      var changeDue := amountGiven - total;
      var newSale := Sale(saleId, timestamp, items, total, amountGiven, Max(0, changeDue),
                          saleProfit, customerId, salesmanId, Cash);
      salesHistory := RecordSale(salesHistory, newSale);
    }

    /** Registers a staff member at the end of the list. */
    method AddSalesman(id: string, name: string, code: string)
      modifies this
      ensures salesmen == old(salesmen) + [Salesman(id, name, code)]
      ensures products == old(products) && customers == old(customers) && salesHistory == old(salesHistory)
    {
      salesmen := salesmen + [Salesman(id, name, code)];
    }

    /** Replaces every staff entry that has the id of `s`. */
    method UpdateSalesman(s: Salesman)
      modifies this
      ensures salesmen == ReplaceByKey(old(salesmen), SalesmanId, s)
      ensures products == old(products) && customers == old(customers) && salesHistory == old(salesHistory)
    {
      salesmen := ReplaceByKey(salesmen, SalesmanId, s);
    }

    /** Removes every staff entry with id `id`. */
    method DeleteSalesman(id: string)
      modifies this
      ensures salesmen == RemoveByKey(old(salesmen), SalesmanId, id)
      ensures products == old(products) && customers == old(customers) && salesHistory == old(salesHistory)
    {
      salesmen := RemoveByKey(salesmen, SalesmanId, id);
    }

    /** Inventory: a new product goes to the front of the list. */
    method AddProduct(p: Product)
      modifies this
      ensures products == [p] + old(products)
      ensures salesmen == old(salesmen) && customers == old(customers) && salesHistory == old(salesHistory)
    {
      products := [p] + products;
    }

    /** Inventory: replaces every product that has the id of `p`. */
    method UpdateProduct(p: Product)
      modifies this
      ensures products == ReplaceByKey(old(products), ProductId, p)
      ensures salesmen == old(salesmen) && customers == old(customers) && salesHistory == old(salesHistory)
    {
      products := ReplaceByKey(products, ProductId, p);
    }

    /** Inventory: removes every product with id `id`. */
    method DeleteProduct(id: string)
      modifies this
      ensures products == RemoveByKey(old(products), ProductId, id)
      ensures salesmen == old(salesmen) && customers == old(customers) && salesHistory == old(salesHistory)
    {
      products := RemoveByKey(products, ProductId, id);
    }

    /** A customer registered at the terminal goes to the end of the list. */
    method AddCustomer(c: Customer)
      modifies this
      ensures customers == old(customers) + [c]
      ensures products == old(products) && salesmen == old(salesmen) && salesHistory == old(salesHistory)
    {
      customers := customers + [c];
    }
  }
}
