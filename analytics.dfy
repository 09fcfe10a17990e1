/** The performance screen: store-wide totals over the sales history, the
    per-salesman revenue and transaction count, their ranking by revenue, and
    the salesman column of the transaction log. */
module Analytics {
  import opened Collections
  import opened Text
  import opened Types
  import opened Pricing
  import App

  function SaleTotal(s: Sale): int { s.total }

  function SaleProfit(s: Sale): int { s.profit }

  /** Units sold in one sale. */
  function SaleItemCount(s: Sale): int { SumOf(s.items, LineQuantity) }

  function TotalRevenue(sales: seq<Sale>): int { SumOf(sales, SaleTotal) }

  function TotalProfit(sales: seq<Sale>): int { SumOf(sales, SaleProfit) }

  function TotalItems(sales: seq<Sale>): int { SumOf(sales, SaleItemCount) }

  /** Recording a sale adds its total, profit and units to the store-wide figures. */
  lemma RecordSaleTotals(history: seq<Sale>, sale: Sale)
    ensures TotalRevenue(App.RecordSale(history, sale)) == TotalRevenue(history) + sale.total
    ensures TotalProfit(App.RecordSale(history, sale)) == TotalProfit(history) + sale.profit
    ensures TotalItems(App.RecordSale(history, sale)) == TotalItems(history) + SaleItemCount(sale)
  {
    assert App.RecordSale(history, sale)[1..] == history;
  }

  /** With no negative line quantity, the units sold are never negative. */
  lemma {:induction false} TotalItemsNonNegative(sales: seq<Sale>)
    requires forall i, j :: 0 <= i < |sales| && 0 <= j < |sales[i].items| ==> sales[i].items[j].quantity >= 0
    ensures TotalItems(sales) >= 0
  {
    if sales != [] {
      UnitsNonNegative(sales[0].items);
      TotalItemsNonNegative(sales[1..]);
    }
  }

  lemma {:induction false} UnitsNonNegative(items: seq<CartItem>)
    requires forall j :: 0 <= j < |items| ==> items[j].quantity >= 0
    ensures SumOf(items, LineQuantity) >= 0
  {
    if items != [] {
      UnitsNonNegative(items[1..]);
    }
  }

  /** One bar of the salesman chart. */
  datatype SalesmanStat = SalesmanStat(name: string, revenue: int, count: int)

  /** The sales attributed to the salesman with id `id`, in history order. */
  function SalesBy(sales: seq<Sale>, id: string): (r: seq<Sale>)
    ensures forall i :: 0 <= i < |r| ==> r[i] in sales && r[i].salesmanId == id
    ensures forall i :: 0 <= i < |sales| ==> (sales[i] in r <==> sales[i].salesmanId == id)
    ensures Subsequence(r, sales)
    ensures forall x {:trigger multiset(r)[x]} :: multiset(r)[x] == if x.salesmanId == id then multiset(sales)[x] else 0
  {
    Filter(sales, (sale: Sale) => sale.salesmanId == id)
  }

  /** One entry per salesman, in staff order: the name, the revenue of that
      salesman's sales and how many there are. */
  function SalesmanData(sales: seq<Sale>, salesmen: seq<Salesman>): (r: seq<SalesmanStat>)
    ensures |r| == |salesmen|
    ensures forall i :: 0 <= i < |r| ==>
              r[i].name == salesmen[i].name &&
              r[i].count == |SalesBy(sales, salesmen[i].id)| &&
              r[i].revenue == TotalRevenue(SalesBy(sales, salesmen[i].id))
  {
    seq(|salesmen|, i requires 0 <= i < |salesmen| =>
      var mine := SalesBy(sales, salesmen[i].id);
      SalesmanStat(salesmen[i].name, TotalRevenue(mine), |mine|))
  }

  function StatCount(s: SalesmanStat): int { s.count }

  function StatRevenue(s: SalesmanStat): int { s.revenue }

  /** How many entries of the staff list have id `id`. */
  function Holders(salesmen: seq<Salesman>, id: string): (r: nat)
    ensures r == 0 <==> !HasKey(salesmen, SalesmanId, id)
  {
    if salesmen == [] then 0
    else (if salesmen[0].id == id then 1 else 0) + Holders(salesmen[1..], id)
  }

  lemma {:induction false} UniqueHolder(salesmen: seq<Salesman>, id: string)
    requires UniqueKeys(salesmen, SalesmanId)
    ensures Holders(salesmen, id) <= 1
  {
    if salesmen != [] {
      var tail := salesmen[1..];
      assert UniqueKeys(tail, SalesmanId) by {
        forall i, j | 0 <= i < j < |tail| ensures SalesmanId(tail[i]) != SalesmanId(tail[j]) {
          assert tail[i] == salesmen[i + 1] && tail[j] == salesmen[j + 1];
        }
      }
      UniqueHolder(tail, id);
      if salesmen[0].id == id {
        assert !HasKey(tail, SalesmanId, id) by {
          forall i | 0 <= i < |tail| ensures SalesmanId(tail[i]) != id {
            assert tail[i] == salesmen[i + 1];
          }
        }
      }
    }
  }

  /** Dropping the first staff member drops the first chart entry. */
  lemma SalesmanDataTail(sales: seq<Sale>, salesmen: seq<Salesman>)
    requires salesmen != []
    ensures SalesmanData(sales, salesmen)[1..] == SalesmanData(sales, salesmen[1..])
  {
  }

  /** The sales of a salesman, with one more sale in front of the history. */
  lemma SalesByCons(sale: Sale, rest: seq<Sale>, id: string)
    ensures SalesBy([sale] + rest, id) == if sale.salesmanId == id then [sale] + SalesBy(rest, id) else SalesBy(rest, id)
  {
    assert ([sale] + rest)[1..] == rest;
  }

  /** The first chart entry, with one more sale in front of the history. */
  lemma HeadStatCons(sale: Sale, rest: seq<Sale>, salesmen: seq<Salesman>)
    requires salesmen != []
    ensures var hit := if sale.salesmanId == salesmen[0].id then 1 else 0;
            SalesmanData([sale] + rest, salesmen)[0].count == hit + SalesmanData(rest, salesmen)[0].count &&
            SalesmanData([sale] + rest, salesmen)[0].revenue ==
              (if hit == 1 then sale.total else 0) + SalesmanData(rest, salesmen)[0].revenue
  {
    var id := salesmen[0].id;
    SalesByCons(sale, rest, id);
    if sale.salesmanId == id {
      assert TotalRevenue([sale] + SalesBy(rest, id)) == sale.total + TotalRevenue(SalesBy(rest, id)) by {
        assert ([sale] + SalesBy(rest, id))[1..] == SalesBy(rest, id);
      }
    }
  }

  /** `x` added to itself `n` times. */
  function Repeated(n: nat, x: int): int
  {
    if n == 0 then 0 else x + Repeated(n - 1, x)
  }

  /** Putting one more sale in front of the history adds one to the count of
      every staff entry with its salesman id. */
  lemma {:induction false} CountsCons(sale: Sale, rest: seq<Sale>, salesmen: seq<Salesman>)
    ensures SumOf(SalesmanData([sale] + rest, salesmen), StatCount) ==
            Holders(salesmen, sale.salesmanId) + SumOf(SalesmanData(rest, salesmen), StatCount)
  {
    if salesmen != [] {
      var d := SalesmanData([sale] + rest, salesmen);
      var e := SalesmanData(rest, salesmen);
      var tail := salesmen[1..];
      var hit := if sale.salesmanId == salesmen[0].id then 1 else 0;
      assert SumOf(d, StatCount) == d[0].count + SumOf(SalesmanData([sale] + rest, tail), StatCount) by {
        SalesmanDataTail([sale] + rest, salesmen);
      }
      assert SumOf(e, StatCount) == e[0].count + SumOf(SalesmanData(rest, tail), StatCount) by {
        SalesmanDataTail(rest, salesmen);
      }
      assert d[0].count == hit + e[0].count by {
        HeadStatCons(sale, rest, salesmen);
      }
      CountsCons(sale, rest, tail);
    }
  }

  /** Putting one more sale in front of the history adds its total to the
      revenue of every staff entry with its salesman id. */
  lemma {:induction false} RevenuesCons(sale: Sale, rest: seq<Sale>, salesmen: seq<Salesman>)
    ensures SumOf(SalesmanData([sale] + rest, salesmen), StatRevenue) ==
            Repeated(Holders(salesmen, sale.salesmanId), sale.total) + SumOf(SalesmanData(rest, salesmen), StatRevenue)
  {
    if salesmen != [] {
      var d := SalesmanData([sale] + rest, salesmen);
      var e := SalesmanData(rest, salesmen);
      var tail := salesmen[1..];
      var hit := if sale.salesmanId == salesmen[0].id then sale.total else 0;
      assert SumOf(d, StatRevenue) == d[0].revenue + SumOf(SalesmanData([sale] + rest, tail), StatRevenue) by {
        SalesmanDataTail([sale] + rest, salesmen);
      }
      assert SumOf(e, StatRevenue) == e[0].revenue + SumOf(SalesmanData(rest, tail), StatRevenue) by {
        SalesmanDataTail(rest, salesmen);
      }
      assert d[0].revenue == hit + e[0].revenue by {
        HeadStatCons(sale, rest, salesmen);
      }
      assert Repeated(Holders(salesmen, sale.salesmanId), sale.total) ==
             hit + Repeated(Holders(tail, sale.salesmanId), sale.total);
      RevenuesCons(sale, rest, tail);
    }
  }

  /** With unique salesman ids, the chart counts every sale at most once:
      sales by unknown salesmen are not counted at all. */
  lemma {:induction false} CountsAtMostSales(sales: seq<Sale>, salesmen: seq<Salesman>)
    requires UniqueKeys(salesmen, SalesmanId)
    ensures SumOf(SalesmanData(sales, salesmen), StatCount) <= |sales|
  {
    if sales == [] {
      ZeroWithoutSales(salesmen);
    } else {
      assert sales == [sales[0]] + sales[1..];
      CountsCons(sales[0], sales[1..], salesmen);
      UniqueHolder(salesmen, sales[0].salesmanId);
      CountsAtMostSales(sales[1..], salesmen);
    }
  }

  lemma {:induction false} ZeroWithoutSales(salesmen: seq<Salesman>)
    ensures SumOf(SalesmanData([], salesmen), StatCount) == 0
    ensures SumOf(SalesmanData([], salesmen), StatRevenue) == 0
  {
    if salesmen != [] {
      SalesmanDataTail([], salesmen);
      ZeroWithoutSales(salesmen[1..]);
    }
  }

  /** Every sale is attributed to a member of the staff list. */
  ghost predicate AllAttributed(sales: seq<Sale>, salesmen: seq<Salesman>)
  {
    forall i :: 0 <= i < |sales| ==> HasKey(salesmen, SalesmanId, sales[i].salesmanId)
  }

  /** The first sale of an attributed history has exactly one holder of its
      salesman id, and the rest of the history stays attributed. */
  lemma AttributedCons(sales: seq<Sale>, salesmen: seq<Salesman>)
    requires UniqueKeys(salesmen, SalesmanId) && AllAttributed(sales, salesmen) && sales != []
    ensures Holders(salesmen, sales[0].salesmanId) == 1
    ensures AllAttributed(sales[1..], salesmen)
  {
    UniqueHolder(salesmen, sales[0].salesmanId);
    assert HasKey(salesmen, SalesmanId, sales[0].salesmanId);
    var rest := sales[1..];
    forall i | 0 <= i < |rest| ensures HasKey(salesmen, SalesmanId, rest[i].salesmanId) {
      assert rest[i] == sales[i + 1];
    }
  }

  /** With unique salesman ids and no sale by an unknown salesman, the chart
      counts add up to the number of sales. */
  lemma {:induction false} CountsCoverSales(sales: seq<Sale>, salesmen: seq<Salesman>)
    requires UniqueKeys(salesmen, SalesmanId) && AllAttributed(sales, salesmen)
    ensures SumOf(SalesmanData(sales, salesmen), StatCount) == |sales|
  {
    if sales == [] {
      ZeroWithoutSales(salesmen);
    } else {
      assert sales == [sales[0]] + sales[1..];
      CountsCons(sales[0], sales[1..], salesmen);
      AttributedCons(sales, salesmen);
      CountsCoverSales(sales[1..], salesmen);
    }
  }

  /** With unique salesman ids and no sale by an unknown salesman, the chart
      revenues add up to the store's total revenue. */
  lemma {:induction false} RevenuesCoverTotal(sales: seq<Sale>, salesmen: seq<Salesman>)
    requires UniqueKeys(salesmen, SalesmanId) && AllAttributed(sales, salesmen)
    ensures SumOf(SalesmanData(sales, salesmen), StatRevenue) == TotalRevenue(sales)
  {
    if sales == [] {
      ZeroWithoutSales(salesmen);
    } else {
      var rest := sales[1..];
      assert SumOf(SalesmanData(sales, salesmen), StatRevenue) ==
             Repeated(Holders(salesmen, sales[0].salesmanId), sales[0].total) +
             SumOf(SalesmanData(rest, salesmen), StatRevenue) by {
        assert sales == [sales[0]] + rest;
        RevenuesCons(sales[0], rest, salesmen);
      }
      assert Holders(salesmen, sales[0].salesmanId) == 1 && AllAttributed(rest, salesmen) by {
        AttributedCons(sales, salesmen);
      }
      assert SumOf(SalesmanData(rest, salesmen), StatRevenue) == TotalRevenue(rest) by {
        RevenuesCoverTotal(rest, salesmen);
      }
      assert Repeated(1, sales[0].total) == sales[0].total;
      assert TotalRevenue(sales) == sales[0].total + TotalRevenue(rest);
    }
  }

  /** The salesman column of the transaction log. */
  function TransactionSalesmanLabel(salesmen: seq<Salesman>, sale: Sale): (r: string)
    ensures !HasKey(salesmen, SalesmanId, sale.salesmanId) ==> r == "N/A"
    ensures r != "N/A" ==>
              exists i :: 0 <= i < |salesmen| && salesmen[i].id == sale.salesmanId && salesmen[i].name == r
    // the first staff entry with the id gives the name, unless that name is empty
    ensures forall i :: 0 <= i < |salesmen| && salesmen[i].id == sale.salesmanId &&
                        (forall j :: 0 <= j < i ==> salesmen[j].id != sale.salesmanId) ==>
              r == (if salesmen[i].name == "" then "N/A" else salesmen[i].name)
  {
    OrDefault(SalesmanName(salesmen, sale.salesmanId), "N/A")
  }

  /** Highest revenue first. */
  ghost predicate SortedByRevenueDesc(s: seq<SalesmanStat>)
  {
    forall p, q :: 0 <= p < q < |s| ==> s[p].revenue >= s[q].revenue
  }

  /** The efficiency ranking's `sort`: orders the entries in place by
      descending revenue (an insertion sort by adjacent swaps). */
  method RankByRevenue(a: array<SalesmanStat>)
    modifies a
    ensures SortedByRevenueDesc(a[..])
    ensures multiset(a[..]) == multiset(old(a[..]))
  {
    if a.Length == 0 {
      return;
    }
    var i := 1;
    while i < a.Length
      invariant 1 <= i <= a.Length
      invariant forall p, q :: 0 <= p < q < i ==> a[p].revenue >= a[q].revenue
      invariant multiset(a[..]) == multiset(old(a[..]))
    {
      SiftLeft(a, i);
      i := i + 1;
    }
  }

  /** One insertion step: with `a[..i]` ordered, moves `a[i]` left past every
      entry of lower revenue, so that `a[..i + 1]` is ordered. */
  method SiftLeft(a: array<SalesmanStat>, i: int)
    requires 0 < i < a.Length
    requires forall p, q :: 0 <= p < q < i ==> a[p].revenue >= a[q].revenue
    modifies a
    ensures forall p, q :: 0 <= p < q <= i ==> a[p].revenue >= a[q].revenue
    ensures multiset(a[..]) == multiset(old(a[..]))
  {
    var j := i;
    while j > 0 && a[j - 1].revenue < a[j].revenue
      invariant 0 <= j <= i
      invariant forall p, q :: 0 <= p < q <= i && q != j ==> a[p].revenue >= a[q].revenue
      invariant multiset(a[..]) == multiset(old(a[..]))
    {
      SwapDown(a, j);
      j := j - 1;
    }
  }

  /** Exchanges the entries at `j - 1` and `j`. */
  method SwapDown(a: array<SalesmanStat>, j: int)
    requires 0 < j < a.Length
    modifies a
    ensures a[..] == old(a[..])[j - 1 := old(a[j])][j := old(a[j - 1])]
    ensures multiset(a[..]) == multiset(old(a[..]))
  {
    a[j - 1], a[j] := a[j], a[j - 1];
  }

  /** The ranking shown under the revenue mix: the salesman entries, highest
      revenue first. */
  method Ranking(sales: seq<Sale>, salesmen: seq<Salesman>) returns (r: seq<SalesmanStat>)
    ensures SortedByRevenueDesc(r)
    ensures multiset(r) == multiset(SalesmanData(sales, salesmen))
    ensures |r| == |salesmen|
  {
    var data := SalesmanData(sales, salesmen);
    var a := new SalesmanStat[|data|](i requires 0 <= i < |data| => data[i]);
    assert a[..] == data;
    RankByRevenue(a);
    r := a[..];
    assert |multiset(r)| == |multiset(data)|;
  }
}
