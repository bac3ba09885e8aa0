/**
 * The handlers of project_server.py as they run: each reloads the catalog
 * from the JSON file into the module-level list, scans it for the first
 * product with the id, changes that product's quantity in place and saves
 * the list back. Each method is one whole handler call, as the lock makes
 * it for the two mutations.
 */
module Server {

  import opened Wrappers
  import opened Catalog
  import opened Validation
  import opened Inventory

  /**
   * The first-match scan of query_product (project_server.py:44-48) over a
   * loaded catalog.
   */
  method Lookup(products: seq<Product>, id: nat) returns (r: Response)
    ensures r == QueryResult(products, id)
  {
    var i := 0;
    while i < |products|
      invariant 0 <= i <= |products|
      invariant forall k :: 0 <= k < i ==> products[k].id != id
    {
      if products[i].id == id {
        return Found(products[i]);
      }
      i := i + 1;
    }
    return NotFound(IdNotFound);
  }

  /**
   * The server's state: `products` is the module-level list that
   * load_products reassigns and the handlers change in place, `stored` the
   * list held in products.json.
   */
  class Store {
    var products: seq<Product>
    var stored: seq<Product>

    /** A server started over an existing products.json; the list starts empty. */
    constructor (document: seq<Product>)
      ensures products == [] && stored == document
    {
      products := [];
      stored := document;
    }

    /** load_products (project_server.py:25-31) when the file exists. */
    method Load()
      modifies this`products
      ensures products == stored
    {
      products := stored;
    }

    /** save_product (project_server.py:33-35): the file holds exactly the list. */
    method Save()
      modifies this`stored
      ensures stored == products
    {
      stored := products;
    }

    /**
     * query_product (project_server.py:39-48). The id comes from the
     * `<int:id>` route, so it is never None and the check at line 40 never
     * fires. The file is only read.
     */
    method Query(id: nat) returns (r: Response)
      modifies this`products
      ensures stored == old(stored) && products == stored
      ensures r == QueryResult(stored, id)
    {
      Load();
      r := Lookup(products, id);
    }

    /**
     * buy_product (project_server.py:52-90). The id comes from the
     * `<int:id>` route, a non-negative integer, so the checks at lines 57-60
     * never fire. A rejected request touches neither the list nor the file.
     */
    method Buy(id: nat, quantity: Quantity, card: Option<string>) returns (r: Response)
      modifies this
      ensures Step(r, stored) == BuyStep(old(stored), id, quantity, card)
      ensures products == if BuyRequestError(quantity, card).Some? then old(products) else stored
    {
      var error := BuyRequestError(quantity, card);
      if error.Some? {
        return BadRequest(error.value);
      }
      r := PurchaseUnderLock(id, quantity.value);
    }

    /**
     * The `with lock:` section of buy_product (project_server.py:74-90):
     * reload, find the first product with the id, and lower its quantity in
     * place and save only when the stock covers the request.
     */
    method PurchaseUnderLock(id: nat, q: nat) returns (r: Response)
      modifies this
      ensures Step(r, stored) == Purchase(old(stored), id, q)
      ensures products == stored
    {
      Load();
      var i := 0;
      while i < |products|
        invariant 0 <= i <= |products|
        invariant products == stored == old(stored)
        invariant forall k :: 0 <= k < i ==> products[k].id != id
      {
        if products[i].id == id {
          assert FindFirst(old(stored), id) == Some(i);
          if products[i].quantity >= q {
            products := products[i := products[i].(quantity := products[i].quantity - q)];
            assert products == WithQuantity(old(stored), i, old(stored)[i].quantity - q);
            Save();
            var amount := products[i].price * q;
            return Success(amount, products[i].quantity);
          } else {
            return Failure(InsufficientStock, products[i].quantity);
          }
        }
        i := i + 1;
      }
      return NotFound(NoSuchProduct);
    }

    /**
     * replenish_product (project_server.py:94-116). As for Buy, the checks
     * of the id at lines 98-101 never fire.
     */
    method Replenish(id: nat, quantity: Quantity) returns (r: Response)
      modifies this
      ensures Step(r, stored) == ReplenishStep(old(stored), id, quantity)
      ensures products == if ReplenishRequestError(quantity).Some? then old(products) else stored
    {
      var error := ReplenishRequestError(quantity);
      if error.Some? {
        return BadRequest(error.value);
      }
      r := RestockUnderLock(id, quantity.value);
    }

    /**
     * The `with lock:` section of replenish_product (project_server.py:107-116):
     * reload, find the first product with the id, raise its quantity in
     * place and save.
     */
    method RestockUnderLock(id: nat, q: nat) returns (r: Response)
      modifies this
      ensures Step(r, stored) == Restock(old(stored), id, q)
      ensures products == stored
    {
      Load();
      var i := 0;
      while i < |products|
        invariant 0 <= i <= |products|
        invariant products == stored == old(stored)
        invariant forall k :: 0 <= k < i ==> products[k].id != id
      {
        if products[i].id == id {
          assert FindFirst(old(stored), id) == Some(i);
          products := products[i := products[i].(quantity := products[i].quantity + q)];
          assert products == WithQuantity(old(stored), i, old(stored)[i].quantity + q);
          Save();
          return Replenished(products[i].quantity);
        }
        i := i + 1;
      }
      return NotFound(NoSuchProduct);
    }
  }
}
