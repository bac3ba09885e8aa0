/**
 * The catalog: the ordered list of products held in the JSON document
 * (project_server.py:5). Lookup is a linear scan in list order, and the
 * first entry whose id matches wins; ids are not checked for uniqueness.
 */
module Catalog {

  import opened Wrappers

  /** A product entry: its id, a description, a unit price and the stock on hand. */
  datatype Product = Product(id: int, desc: string, price: int, quantity: int)

  /** Every quantity in the catalog is at least zero. */
  predicate NonNegative(products: seq<Product>)
  {
    forall k :: 0 <= k < |products| ==> products[k].quantity >= 0
  }

  /**
   * The index of the first product whose id is `id`, as the `for item in
   * products["products"]: if item["id"] == id` scans find it.
   */
  function FindFirst(products: seq<Product>, id: int): (r: Option<nat>)
    ensures r.Some? ==> r.value < |products| && products[r.value].id == id
    ensures r.Some? ==> forall k :: 0 <= k < r.value ==> products[k].id != id
    ensures r.None? <==> forall k :: 0 <= k < |products| ==> products[k].id != id
  {
    if products == [] then None
    else if products[0].id == id then Some(0)
    else match FindFirst(products[1..], id)
      case None => None
      case Some(k) => Some(k + 1)
  }

  /** The catalog with the quantity of entry `i` set to `q`; nothing else differs. */
  function WithQuantity(products: seq<Product>, i: nat, q: int): (r: seq<Product>)
    requires i < |products|
    ensures |r| == |products|
    ensures r[i].id == products[i].id && r[i].desc == products[i].desc
    ensures r[i].price == products[i].price && r[i].quantity == q
    ensures forall k :: 0 <= k < |products| && k != i ==> r[k] == products[k]
  {
    products[i := products[i].(quantity := q)]
  }

  /** Two catalogs list the same ids in the same order. */
  predicate SameIds(a: seq<Product>, b: seq<Product>)
  {
    |a| == |b| && forall k :: 0 <= k < |a| ==> a[k].id == b[k].id
  }

  /** A lookup depends on the ids alone, so changing quantities never moves the first match. */
  lemma FindFirstIgnoresQuantities(a: seq<Product>, b: seq<Product>, id: int)
    requires SameIds(a, b)
    ensures FindFirst(a, id) == FindFirst(b, id)
  {
  }
}
