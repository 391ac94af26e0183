/** The stock page of src/app/stock/page.tsx: the three-way stock status shown
    per row, the product-name lookup, and when the full-screen spinner shows. */
module StockPage {
  import opened Wrappers
  import opened Types

  /** The status badge of a stock row. */
  datatype StockStatus = InStock | LowStock | OutOfStock

  function Label(s: StockStatus): string
  {
    match s
    case InStock => "Em estoque"
    case LowStock => "Estoque baixo"
    case OutOfStock => "Sem estoque"
  }

  /** `quantity > 10 ? 'Em estoque' : quantity > 0 ? 'Estoque baixo' :
      'Sem estoque'` */
  function Status(quantity: int): (s: StockStatus)
    ensures s == InStock <==> quantity > 10
    ensures s == LowStock <==> 1 <= quantity <= 10
    ensures s == OutOfStock <==> quantity <= 0
  {
    if quantity > 10 then InStock
    else if quantity > 0 then LowStock
    else OutOfStock
  }

  /** How good a status is: out of stock is worst. */
  function Rank(s: StockStatus): nat
  {
    match s
    case OutOfStock => 0
    case LowStock => 1
    case InStock => 2
  }

  /** A larger quantity never gets a worse status. */
  lemma StatusMonotone(q1: int, q2: int)
    requires q1 <= q2
    ensures Rank(Status(q1)) <= Rank(Status(q2))
  {
  }

  /** `products.find(p => p.id === productId)`: the first product with that
      id, if any. */
  function FindProduct(products: seq<Product>, productId: int): (r: Option<Product>)
    ensures r.None? <==> forall k :: 0 <= k < |products| ==> products[k].id != Some(productId)
    ensures r.Some? ==> exists k :: (0 <= k < |products| && products[k] == r.value && products[k].id == Some(productId)
      && forall j :: 0 <= j < k ==> products[j].id != Some(productId))
  {
    if products == [] then None
    else if products[0].id == Some(productId) then Some(products[0])
    else
      var r := FindProduct(products[1..], productId);
      assert forall k :: 1 <= k < |products| ==> products[k] == products[1..][k - 1];
      r
  }

  /** `getProductName(productId)`: "N/A" for a missing or zero id and for an
      id no product has; otherwise the name of the first product with that id. */
  function GetProductName(products: seq<Product>, productId: Option<int>): (r: string)
    ensures productId.None? || productId == Some(0) ==> r == "N/A"
    ensures productId.Some? && productId.value != 0 && (forall k :: 0 <= k < |products| ==> products[k].id != productId) ==> r == "N/A"
    ensures forall k ::
      (0 <= k < |products| && productId.Some? && productId.value != 0 && products[k].id == productId
       && (forall j :: 0 <= j < k ==> products[j].id != productId)) ==> r == products[k].name
  {
    if productId.None? || productId.value == 0 then "N/A"
    else
      var p := FindProduct(products, productId.value);
      if p.Some? then p.value.name else "N/A"
  }

  /** `loading && stocks.length === 0`: the full-screen spinner replaces the
      table only while loading with nothing to show yet. */
  function ShowsLoadingScreen(loading: bool, stocks: seq<Stock>): (r: bool)
    ensures r ==> loading && stocks == []
    ensures loading && stocks == [] ==> r
  {
    loading && |stocks| == 0
  }
}
