/** The statistics of src/app/dashboard/page.tsx, computed from the fetched
    product and stock lists: the counts on the cards, the low-stock alert, the
    five lowest-stock products and the five first products. */
module Dashboard {
  import opened Wrappers
  import opened Types
  import StockPage

  /** The dashboard's threshold: a quantity below 10 is low. */
  const LowStockThreshold: int := 10
  const ShownRows: nat := 5

  /** `stocks.filter(stock => stock.quantity < 10).length` */
  function LowStockItems(stocks: seq<Stock>): (r: nat)
    ensures r <= |stocks|
    ensures r > 0 <==> exists k :: 0 <= k < |stocks| && stocks[k].quantity < LowStockThreshold
    ensures r == |stocks| <==> forall k :: 0 <= k < |stocks| ==> stocks[k].quantity < LowStockThreshold
  {
    if stocks == [] then 0
    else
      var rest := LowStockItems(stocks[1..]);
      assert forall k :: 1 <= k < |stocks| ==> stocks[k] == stocks[1..][k - 1];
      (if stocks[0].quantity < LowStockThreshold then 1 else 0) + rest
  }

  /** The count adds up over any split of the list, so with the count of one
      record (1 below the threshold, 0 otherwise) it is the number of records
      below the threshold. */
  lemma {:induction false} LowStockItemsConcat(a: seq<Stock>, b: seq<Stock>)
    ensures LowStockItems(a + b) == LowStockItems(a) + LowStockItems(b)
  {
    if a == [] {
      assert a + b == b;
    } else {
      assert (a + b)[1..] == a[1..] + b;
      LowStockItemsConcat(a[1..], b);
    }
  }

  /** A single record counts 1 exactly when its quantity is below 10. */
  lemma LowStockItemsSingle(s: Stock)
    ensures LowStockItems([s]) == if s.quantity < LowStockThreshold then 1 else 0
  {
    assert [s][1..] == [];
  }

  /** `stocks.reduce((sum, item) => sum + item.quantity, 0)` */
  function TotalStockItems(stocks: seq<Stock>): (r: int)
    ensures stocks == [] ==> r == 0
    ensures (forall k :: 0 <= k < |stocks| ==> stocks[k].quantity >= 0) ==> r >= 0
  {
    if stocks == [] then 0
    else
      var front := TotalStockItems(stocks[..|stocks| - 1]);
      assert forall k :: 0 <= k < |stocks| - 1 ==> stocks[..|stocks| - 1][k] == stocks[k];
      front + stocks[|stocks| - 1].quantity
  }

  /** A single record contributes its quantity, so with
      `TotalStockItemsConcat` the total is the sum of the quantities. */
  lemma TotalStockItemsSingle(s: Stock)
    ensures TotalStockItems([s]) == s.quantity
  {
    assert [s][..0] == [];
  }

  /** The total adds up over any split of the list. */
  lemma {:induction false} TotalStockItemsConcat(a: seq<Stock>, b: seq<Stock>)
    ensures TotalStockItems(a + b) == TotalStockItems(a) + TotalStockItems(b)
  {
    if b == [] {
      assert a + b == a;
    } else {
      assert (a + b)[..|a + b| - 1] == a + b[..|b| - 1];
      TotalStockItemsConcat(a, b[..|b| - 1]);
    }
  }

  /** `product.stock && product.stock.quantity < 10` */
  predicate IsLowStockProduct(p: Product)
  {
    p.stock.Some? && p.stock.value.quantity < LowStockThreshold
  }

  /** The sort key `a.stock?.quantity || 0`. */
  function SortKey(p: Product): int
  {
    if p.stock.Some? then p.stock.value.quantity else 0
  }

  /** `products.filter(isLowStockProduct)` */
  function LowStockCandidates(products: seq<Product>): (r: seq<Product>)
    ensures |r| <= |products|
    ensures forall k :: 0 <= k < |r| ==> IsLowStockProduct(r[k]) && r[k] in products
    ensures forall p :: p in products && IsLowStockProduct(p) ==> p in r
  {
    if products == [] then []
    else if IsLowStockProduct(products[0]) then [products[0]] + LowStockCandidates(products[1..])
    else LowStockCandidates(products[1..])
  }

  /** The filter works piece by piece, so each low-stock product is kept as
      often as it occurs and in its original order. */
  lemma {:induction false} LowStockCandidatesConcat(a: seq<Product>, b: seq<Product>)
    ensures LowStockCandidates(a + b) == LowStockCandidates(a) + LowStockCandidates(b)
  {
    if a == [] {
      assert a + b == b;
    } else {
      assert (a + b)[1..] == a[1..] + b;
      LowStockCandidatesConcat(a[1..], b);
    }
  }

  /** A single product is kept exactly when it is a low-stock product. */
  lemma LowStockCandidatesSingle(p: Product)
    ensures LowStockCandidates([p]) == if IsLowStockProduct(p) then [p] else []
  {
    assert [p][1..] == [];
  }

  ghost predicate SortedByKey(s: seq<Product>)
  {
    forall i, j :: 0 <= i < j < |s| ==> SortKey(s[i]) <= SortKey(s[j])
  }

  /** In a list sorted by key, the head's key is at most every other
      element's. */
  lemma SortedHeadIsSmallest(s: seq<Product>)
    requires SortedByKey(s) && s != []
    ensures forall y :: y in s[1..] ==> SortKey(s[0]) <= SortKey(y)
  {
    forall y | y in s[1..] ensures SortKey(s[0]) <= SortKey(y) {
      var j :| 0 <= j < |s[1..]| && s[1..][j] == y;
      assert s[j + 1] == y;
    }
  }

  /** An element whose key is at most every key of a sorted list can go in
      front of it. */
  lemma ConsSorted(h: Product, t: seq<Product>)
    requires SortedByKey(t)
    requires forall y :: y in t ==> SortKey(h) <= SortKey(y)
    ensures SortedByKey([h] + t)
  {
    forall i, j | 0 <= i < j < |[h] + t| ensures SortKey(([h] + t)[i]) <= SortKey(([h] + t)[j]) {
      assert ([h] + t)[j] == t[j - 1];
      if i > 0 { assert ([h] + t)[i] == t[i - 1]; }
    }
  }

  /** Puts `x` before the first element of the sorted `s` whose key is not
      smaller, keeping equal keys in their original order when the list is
      built from the back. */
  function Insert(x: Product, s: seq<Product>): (r: seq<Product>)
    requires SortedByKey(s)
    ensures SortedByKey(r)
    ensures |r| == |s| + 1
    ensures multiset(r) == multiset(s) + multiset{x}
    ensures forall y :: y in r <==> y == x || y in s
  {
    if s == [] || SortKey(x) <= SortKey(s[0]) then
      ConsSorted(x, s);
      [x] + s
    else
      var rest := Insert(x, s[1..]);
      assert s == [s[0]] + s[1..];
      SortedHeadIsSmallest(s);
      ConsSorted(s[0], rest);
      [s[0]] + rest
  }

  /** `.sort((a, b) => key(a) - key(b))`: a stable sort by quantity, written
      as insertion sort. */
  function SortByKey(s: seq<Product>): (r: seq<Product>)
    ensures SortedByKey(r)
    ensures |r| == |s|
    ensures multiset(r) == multiset(s)
    ensures forall y :: y in r <==> y in s
  {
    if s == [] then []
    else
      assert s == [s[0]] + s[1..];
      Insert(s[0], SortByKey(s[1..]))
  }

  /** `.slice(0, n)` */
  function Take(s: seq<Product>, n: nat): (r: seq<Product>)
    ensures |r| == if |s| < n then |s| else n
    ensures r == s[..|r|]
  {
    if |s| <= n then s else s[..n]
  }

  /** `lowStockProducts`: the low-stock products sorted by quantity, at most
      five. */
  function LowStockProducts(products: seq<Product>): (r: seq<Product>)
    ensures |r| <= ShownRows && |r| <= |products|
  {
    Take(SortByKey(LowStockCandidates(products)), ShownRows)
  }

  /** In a list sorted by key, nothing after a prefix has a smaller key than
      anything in it. */
  lemma PrefixOfSortedIsSmallest(s: seq<Product>, m: nat)
    requires SortedByKey(s) && m <= |s|
    ensures forall x, y :: x in multiset(s) - multiset(s[..m]) && y in s[..m] ==> SortKey(y) <= SortKey(x)
  {
    assert s == s[..m] + s[m..];
    assert multiset(s) - multiset(s[..m]) == multiset(s[m..]);
    forall x, y | x in multiset(s) - multiset(s[..m]) && y in s[..m] ensures SortKey(y) <= SortKey(x) {
      assert x in s[m..];
      var i :| 0 <= i < |s[m..]| && s[m..][i] == x;
      var j :| 0 <= j < m && s[..m][j] == y;
      assert s[j] == y && s[m + i] == x;
    }
  }

  /** A prefix of a list sorted by key is sorted by key. */
  lemma SortedPrefix(s: seq<Product>, m: nat)
    requires SortedByKey(s) && m <= |s|
    ensures SortedByKey(s[..m])
  {
    forall i, j | 0 <= i < j < m ensures SortKey(s[..m][i]) <= SortKey(s[..m][j]) {
      assert s[..m][i] == s[i] && s[..m][j] == s[j];
    }
  }

  /** At most five entries, as many as there are up to five, each a low-stock
      product of the list, in non-decreasing quantity. */
  lemma LowStockProductsShape(products: seq<Product>)
    ensures |LowStockProducts(products)| == if |LowStockCandidates(products)| < 5 then |LowStockCandidates(products)| else 5
    ensures forall k :: 0 <= k < |LowStockProducts(products)| ==>
      IsLowStockProduct(LowStockProducts(products)[k]) && LowStockProducts(products)[k] in products
    ensures SortedByKey(LowStockProducts(products))
  {
    var c := LowStockCandidates(products);
    var s := SortByKey(c);
    var r := LowStockProducts(products);
    assert r == s[..|r|];
    SortedPrefix(s, |r|);
    forall k | 0 <= k < |r| ensures IsLowStockProduct(r[k]) && r[k] in products {
      assert r[k] == s[k] && s[k] in s;
      assert r[k] in c;
    }
  }

  /** The shown entries are taken from the low-stock products, and every
      low-stock product left out has a quantity at least that of every one
      shown. */
  lemma LowStockProductsAreSmallest(products: seq<Product>)
    ensures multiset(LowStockProducts(products)) <= multiset(LowStockCandidates(products))
    ensures forall x, y ::
      (x in multiset(LowStockCandidates(products)) - multiset(LowStockProducts(products)) && y in LowStockProducts(products))
      ==> SortKey(y) <= SortKey(x)
  {
    var c := LowStockCandidates(products);
    var s := SortByKey(c);
    var m := |LowStockProducts(products)|;
    assert LowStockProducts(products) == s[..m];
    assert s == s[..m] + s[m..];
    assert multiset(s) == multiset(s[..m]) + multiset(s[m..]);
    PrefixOfSortedIsSmallest(s, m);
  }

  /** `products.slice(0, 5)` for the recent-products table: the first
      `min(5, n)` products, in order. */
  function RecentProducts(products: seq<Product>): (r: seq<Product>)
    ensures |r| == if |products| < 5 then |products| else 5
    ensures forall k :: 0 <= k < |r| ==> r[k] == products[k]
  {
    Take(products, ShownRows)
  }

  /** `new Set(products.map(p => p.supplier?.id))`: the distinct supplier ids,
      a missing one counting as one value of its own. */
  function SupplierIds(products: seq<Product>): (r: set<Option<int>>)
    ensures |r| <= |products|
    ensures products != [] ==> |r| >= 1
    ensures forall x :: x in r <==> exists k :: 0 <= k < |products| && products[k].supplier == x
  {
    if products == [] then {}
    else
      var rest := SupplierIds(products[1..]);
      var ids := {products[0].supplier} + rest;
      assert |ids| <= 1 + |rest| && |ids| >= 1 by {
        assert ids == rest + {products[0].supplier};
      }
      assert forall k :: 1 <= k < |products| ==> products[k] == products[1..][k - 1];
      ids
  }

  /** The numbers the dashboard shows. */
  datatype Stats = Stats(totalProducts: nat, totalStockItems: int, lowStockItems: nat, suppliers: nat, showLowStockAlert: bool)

  /** The four cards and the alert: product count, stock total, low-stock
      count, distinct suppliers, and whether the alert shows. */
  function ComputeStats(products: seq<Product>, stocks: seq<Stock>): (st: Stats)
    ensures st.totalProducts == |products|
    ensures st.totalStockItems == TotalStockItems(stocks)
    ensures st.lowStockItems == LowStockItems(stocks) && st.suppliers == |SupplierIds(products)|
    ensures st.lowStockItems <= |stocks|
    ensures st.suppliers <= st.totalProducts
    ensures st.showLowStockAlert <==> exists k :: 0 <= k < |stocks| && stocks[k].quantity < LowStockThreshold
    ensures stocks == [] ==> st.totalStockItems == 0 && !st.showLowStockAlert
  {
    var low := LowStockItems(stocks);
    Stats(|products|, TotalStockItems(stocks), low, |SupplierIds(products)|, low > 0)
  }

  /** The two pages draw the line differently: a quantity of exactly 10 is
      "Estoque baixo" on the stock page but is not counted as low here. */
  lemma ThresholdsDiffer(s: Stock)
    requires s.quantity == 10
    ensures StockPage.Status(s.quantity) == StockPage.LowStock
    ensures LowStockItems([s]) == 0
  {
  }
}
