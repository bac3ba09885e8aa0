/**
 * What query_product, buy_product and replenish_product do to the catalog,
 * as functions from the catalog loaded at the start of the call to a reply
 * and the catalog saved at its end. Each mutation runs under the one global
 * lock (project_server.py:7, 74, 107), so here each is a single atomic step
 * and a series of requests is their sequential composition.
 */
module Inventory {

  import opened Wrappers
  import opened Catalog
  import opened Validation

  const IdNotFound := "id not found"
  const NoSuchProduct := "product id does not exist"
  const InsufficientStock := "insufficient stock"

  /**
   * A reply. Found, Success and Replenished are sent with status 200,
   * Failure and BadRequest with 400, NotFound with 404.
   */
  datatype Response =
    | Found(item: Product)
    | Success(amount: int, quantityLeft: int)
    | Replenished(newQuantity: int)
    | Failure(reason: string, quantity: int)
    | NotFound(reason: string)
    | BadRequest(reason: string)
  {
    function Status(): int
    {
      match this
      case NotFound(_) => 404
      case BadRequest(_) => 400
      case Failure(_, _) => 400
      case _ => 200
    }
  }

  /** The reply of one operation and the catalog it leaves behind. */
  datatype Step = Step(response: Response, catalog: seq<Product>)

  /**
   * query_product (project_server.py:43-48): the fields of the first product
   * with this id, which is a product of the catalog with that id, or 404.
   */
  function QueryResult(catalog: seq<Product>, id: nat): (r: Response)
    ensures r.Found? || r == NotFound(IdNotFound)
    ensures r.Found? ==> r.item.id == id && r.item in catalog
  {
    match FindFirst(catalog, id)
    case None => NotFound(IdNotFound)
    case Some(i) => Found(catalog[i])
  }

  /**
   * The locked part of buy_product (project_server.py:76-90) for a validated
   * quantity. It never sells more than is in stock, keeps every id in place,
   * and writes nothing unless it succeeds.
   */
  function Purchase(catalog: seq<Product>, id: nat, q: nat): (s: Step)
    ensures s.response.Success? || s.response == NotFound(NoSuchProduct)
      || (s.response.Failure? && s.response.reason == InsufficientStock)
    ensures s.response.Success? ==> s.response.quantityLeft >= 0
    ensures SameIds(catalog, s.catalog)
    ensures !s.response.Success? ==> s.catalog == catalog
    ensures NonNegative(catalog) ==> NonNegative(s.catalog)
  {
    match FindFirst(catalog, id)
    case None => Step(NotFound(NoSuchProduct), catalog)
    case Some(i) =>
      if catalog[i].quantity >= q then
        Step(Success(catalog[i].price * q, catalog[i].quantity - q),
             WithQuantity(catalog, i, catalog[i].quantity - q))
      else
        Step(Failure(InsufficientStock, catalog[i].quantity), catalog)
  }

  /**
   * The locked part of replenish_product (project_server.py:109-116) for a
   * validated quantity. It keeps every id in place and writes nothing when
   * the id is unknown.
   */
  function Restock(catalog: seq<Product>, id: nat, q: nat): (s: Step)
    ensures s.response.Replenished? || s.response == NotFound(NoSuchProduct)
    ensures SameIds(catalog, s.catalog)
    ensures !s.response.Replenished? ==> s.catalog == catalog
    ensures NonNegative(catalog) ==> NonNegative(s.catalog)
  {
    match FindFirst(catalog, id)
    case None => Step(NotFound(NoSuchProduct), catalog)
    case Some(i) =>
      Step(Replenished(catalog[i].quantity + q), WithQuantity(catalog, i, catalog[i].quantity + q))
  }

  /** buy_product as a whole: the request checks, then the purchase. */
  function BuyStep(catalog: seq<Product>, id: nat, quantity: Quantity, card: Option<string>): (s: Step)
    ensures s.response.Success? || s.response.NotFound? || s.response.Failure? || s.response.BadRequest?
    ensures SameIds(catalog, s.catalog)
    ensures !s.response.Success? ==> s.catalog == catalog
    ensures NonNegative(catalog) ==> NonNegative(s.catalog)
  {
    match BuyRequestError(quantity, card)
    case Some(reason) => Step(BadRequest(reason), catalog)
    case None => Purchase(catalog, id, quantity.value)
  }

  /** replenish_product as a whole: the request checks, then the restock. */
  function ReplenishStep(catalog: seq<Product>, id: nat, quantity: Quantity): (s: Step)
    ensures s.response.Replenished? || s.response.NotFound? || s.response.BadRequest?
    ensures SameIds(catalog, s.catalog)
    ensures !s.response.Replenished? ==> s.catalog == catalog
    ensures NonNegative(catalog) ==> NonNegative(s.catalog)
  {
    match ReplenishRequestError(quantity)
    case Some(reason) => Step(BadRequest(reason), catalog)
    case None => Restock(catalog, id, quantity.value)
  }

  /** A request as the routes receive it. */
  datatype Request =
    | QueryRequest(id: nat)
    | BuyRequest(id: nat, quantity: Quantity, card: Option<string>)
    | ReplenishRequest(id: nat, quantity: Quantity)

  /**
   * One request applied to the catalog. No request changes the catalog's
   * length or any id, only a success writes, and quantities that were all
   * non-negative stay so: a validated purchase only lowers a quantity that
   * covers it, and a validated restock adds a non-negative amount.
   */
  function Handle(catalog: seq<Product>, request: Request): (s: Step)
    ensures SameIds(catalog, s.catalog)
    ensures !s.response.Success? && !s.response.Replenished? ==> s.catalog == catalog
    ensures NonNegative(catalog) ==> NonNegative(s.catalog)
  {
    match request
    case QueryRequest(id) => Step(QueryResult(catalog, id), catalog)
    case BuyRequest(id, quantity, card) => BuyStep(catalog, id, quantity, card)
    case ReplenishRequest(id, quantity) => ReplenishStep(catalog, id, quantity)
  }

  /**
   * The catalog after a series of requests handled one at a time, in order;
   * it lists the same ids in the same order as before.
   */
  function Replay(catalog: seq<Product>, requests: seq<Request>): (r: seq<Product>)
    ensures SameIds(catalog, r)
    decreases |requests|
  {
    if requests == [] then catalog
    else Replay(Handle(catalog, requests[0]).catalog, requests[1..])
  }

  // ---------------------------------------------------------------------
  // Properties
  // ---------------------------------------------------------------------

  /**
   * A request that fails a check gets that check's reason with status 400,
   * and the catalog is neither read nor written.
   */
  lemma RejectedRequestChangesNothing(catalog: seq<Product>, id: nat, quantity: Quantity, card: Option<string>)
    ensures BuyRequestError(quantity, card).Some? ==>
      BuyStep(catalog, id, quantity, card) == Step(BadRequest(BuyRequestError(quantity, card).value), catalog)
    ensures ReplenishRequestError(quantity).Some? ==>
      ReplenishStep(catalog, id, quantity) == Step(BadRequest(ReplenishRequestError(quantity).value), catalog)
  {
  }

  /**
   * Query finds the first entry with the id and returns its four fields, or
   * 404 "id not found" when no entry has the id.
   */
  lemma QueryFindsFirst(catalog: seq<Product>, id: nat)
    ensures QueryResult(catalog, id).NotFound? <==> forall k :: 0 <= k < |catalog| ==> catalog[k].id != id
    ensures QueryResult(catalog, id).NotFound? ==> QueryResult(catalog, id) == NotFound(IdNotFound)
    ensures QueryResult(catalog, id).Found? ==>
      exists i :: 0 <= i < |catalog| && QueryResult(catalog, id).item == catalog[i]
        && catalog[i].id == id && forall k :: 0 <= k < i ==> catalog[k].id != id
  {
    match FindFirst(catalog, id)
    case None =>
    case Some(i) =>
      assert QueryResult(catalog, id).item == catalog[i];
  }

  /**
   * A purchase of q succeeds exactly when the first entry with the id holds
   * at least q. It then lowers that entry's quantity by exactly q, replies
   * with amount price * q and the quantity left, and changes no other entry
   * and no other field.
   */
  lemma PurchaseSucceeds(catalog: seq<Product>, id: nat, q: nat, i: nat)
    requires i < |catalog| && catalog[i].id == id
    requires forall k :: 0 <= k < i ==> catalog[k].id != id
    requires catalog[i].quantity >= q
    ensures var s := Purchase(catalog, id, q);
      && s.response == Success(catalog[i].price * q, catalog[i].quantity - q)
      && |s.catalog| == |catalog|
      && s.catalog[i] == catalog[i].(quantity := catalog[i].quantity - q)
      && forall k :: 0 <= k < |catalog| && k != i ==> s.catalog[k] == catalog[k]
  {
    assert FindFirst(catalog, id) == Some(i);
  }

  /**
   * When the first entry with the id holds less than q, the purchase
   * replies "insufficient stock" with the quantity on hand and status 400,
   * and the catalog is unchanged.
   */
  lemma PurchaseInsufficient(catalog: seq<Product>, id: nat, q: nat, i: nat)
    requires i < |catalog| && catalog[i].id == id
    requires forall k :: 0 <= k < i ==> catalog[k].id != id
    requires catalog[i].quantity < q
    ensures Purchase(catalog, id, q) == Step(Failure(InsufficientStock, catalog[i].quantity), catalog)
    ensures Purchase(catalog, id, q).response.Status() == 400
  {
    assert FindFirst(catalog, id) == Some(i);
  }

  /**
   * A restock of q raises the first matching entry's quantity by exactly q,
   * replies with the new quantity, and changes nothing else.
   */
  lemma RestockAddsExactly(catalog: seq<Product>, id: nat, q: nat, i: nat)
    requires i < |catalog| && catalog[i].id == id
    requires forall k :: 0 <= k < i ==> catalog[k].id != id
    ensures var s := Restock(catalog, id, q);
      && s.response == Replenished(catalog[i].quantity + q)
      && |s.catalog| == |catalog|
      && s.catalog[i] == catalog[i].(quantity := catalog[i].quantity + q)
      && forall k :: 0 <= k < |catalog| && k != i ==> s.catalog[k] == catalog[k]
  {
    assert FindFirst(catalog, id) == Some(i);
  }

  /**
   * An id that no entry has: query replies 404 "id not found", purchase and
   * restock reply 404 "product id does not exist", and nothing changes.
   */
  lemma UnknownIdNotFound(catalog: seq<Product>, id: nat, q: nat)
    requires forall k :: 0 <= k < |catalog| ==> catalog[k].id != id
    ensures QueryResult(catalog, id) == NotFound(IdNotFound)
    ensures Purchase(catalog, id, q) == Step(NotFound(NoSuchProduct), catalog)
    ensures Restock(catalog, id, q) == Step(NotFound(NoSuchProduct), catalog)
    ensures QueryResult(catalog, id).Status() == 404
  {
  }

  /**
   * With duplicate ids, a later entry is never seen or changed: query shows
   * an earlier one, and no purchase or restock of that id touches it.
   */
  lemma LaterDuplicateUntouched(catalog: seq<Product>, i: nat, j: nat, request: Request)
    requires i < j < |catalog| && catalog[i].id == catalog[j].id && catalog[j].id >= 0
    requires request.id == catalog[j].id
    ensures Handle(catalog, request).catalog[j] == catalog[j]
    ensures var r := QueryResult(catalog, catalog[j].id);
      r.Found? && exists k :: 0 <= k <= i && r.item == catalog[k]
  {
    var id: nat := catalog[j].id;
    var f := FindFirst(catalog, id);
    assert f.Some? && f.value <= i;
    assert QueryResult(catalog, id).item == catalog[f.value];
  }

  /**
   * After a successful purchase or restock, querying the catalog it saved
   * shows the product with its new quantity.
   */
  lemma QueryAfterMutation(catalog: seq<Product>, id: nat, q: nat, i: nat)
    requires i < |catalog| && catalog[i].id == id
    requires forall k :: 0 <= k < i ==> catalog[k].id != id
    ensures var s := Purchase(catalog, id, q);
      s.response.Success? ==>
        QueryResult(s.catalog, id) == Found(catalog[i].(quantity := s.response.quantityLeft))
    ensures var s := Restock(catalog, id, q);
      QueryResult(s.catalog, id) == Found(catalog[i].(quantity := s.response.newQuantity))
  {
    assert FindFirst(catalog, id) == Some(i);
    var bought, restocked := Purchase(catalog, id, q), Restock(catalog, id, q);
    FindFirstIgnoresQuantities(catalog, bought.catalog, id);
    FindFirstIgnoresQuantities(catalog, restocked.catalog, id);
  }

  /** The same for any series of requests handled one at a time. */
  lemma {:induction false} ReplayKeepsNonNegative(catalog: seq<Product>, requests: seq<Request>)
    requires NonNegative(catalog)
    ensures NonNegative(Replay(catalog, requests))
    decreases |requests|
  {
    if requests != [] {
      ReplayKeepsNonNegative(Handle(catalog, requests[0]).catalog, requests[1..]);
    }
  }

  /**
   * Two purchases of q in sequence on a product whose stock Q satisfies
   * q <= Q < 2q: the first succeeds and leaves Q - q, the second is refused
   * with "insufficient stock", and the stock stays at Q - q; no oversell.
   */
  lemma TwoPurchasesCannotOversell(catalog: seq<Product>, id: nat, q: nat, i: nat)
    requires i < |catalog| && catalog[i].id == id
    requires forall k :: 0 <= k < i ==> catalog[k].id != id
    requires q <= catalog[i].quantity < 2 * q
    ensures var first := Purchase(catalog, id, q);
      var second := Purchase(first.catalog, id, q);
      && first.response == Success(catalog[i].price * q, catalog[i].quantity - q)
      && second.response == Failure(InsufficientStock, catalog[i].quantity - q)
      && second.catalog == first.catalog
      && second.catalog[i].quantity == catalog[i].quantity - q
  {
    var first := Purchase(catalog, id, q);
    PurchaseSucceeds(catalog, id, q, i);
    PurchaseInsufficient(first.catalog, id, q, i);
  }

  /**
   * Two purchases of q in sequence on a product whose stock Q is at least 2q
   * both succeed, and Q - 2q is left: the second purchase sees the first
   * one's decrement, so no update is lost.
   */
  lemma TwoPurchasesBothSucceed(catalog: seq<Product>, id: nat, q: nat, i: nat)
    requires i < |catalog| && catalog[i].id == id
    requires forall k :: 0 <= k < i ==> catalog[k].id != id
    requires 2 * q <= catalog[i].quantity
    ensures var first := Purchase(catalog, id, q);
      var second := Purchase(first.catalog, id, q);
      && first.response == Success(catalog[i].price * q, catalog[i].quantity - q)
      && second.response == Success(catalog[i].price * q, catalog[i].quantity - 2 * q)
      && |second.catalog| == |catalog|
      && second.catalog[i] == catalog[i].(quantity := catalog[i].quantity - 2 * q)
      && forall k :: 0 <= k < |catalog| && k != i ==> second.catalog[k] == catalog[k]
  {
    var first := Purchase(catalog, id, q);
    PurchaseSucceeds(catalog, id, q, i);
    PurchaseSucceeds(first.catalog, id, q, i);
  }

  /**
   * A buy of quantity 0 with a valid card and an existing product succeeds
   * with amount 0, reports the stock on hand, and leaves the catalog as it was.
   */
  lemma ZeroQuantityBuyChangesNothing(catalog: seq<Product>, id: nat, card: string, i: nat)
    requires |card| == 16 && AllDigits(card)
    requires i < |catalog| && catalog[i].id == id && catalog[i].quantity >= 0
    requires forall k :: 0 <= k < i ==> catalog[k].id != id
    ensures BuyStep(catalog, id, Integer(0), Some(card)) == Step(Success(0, catalog[i].quantity), catalog)
  {
    CheckedBuyIsPurchase(catalog, id, 0, card);
    PurchaseSucceeds(catalog, id, 0, i);
    assert Purchase(catalog, id, 0).catalog == catalog;
  }

  /** A buy request that passes the checks is exactly a purchase of its quantity. */
  lemma CheckedBuyIsPurchase(catalog: seq<Product>, id: nat, q: nat, card: string)
    requires |card| == 16 && AllDigits(card)
    ensures BuyStep(catalog, id, Integer(q), Some(card)) == Purchase(catalog, id, q)
  {
    SixteenDigitCardAccepted(card);
  }

  /**
   * The same through the whole handler, with any sixteen-digit card, as the
   * concurrency test sends two buys of Q / 2 + 1 each.
   */
  lemma TwoBuysCannotOversell(catalog: seq<Product>, id: nat, q: nat, card: string, i: nat)
    requires |card| == 16 && AllDigits(card)
    requires i < |catalog| && catalog[i].id == id
    requires forall k :: 0 <= k < i ==> catalog[k].id != id
    requires q <= catalog[i].quantity < 2 * q
    ensures var first := BuyStep(catalog, id, Integer(q), Some(card));
      var second := BuyStep(first.catalog, id, Integer(q), Some(card));
      && first.response == Success(catalog[i].price * q, catalog[i].quantity - q)
      && second.response == Failure(InsufficientStock, catalog[i].quantity - q)
      && second.catalog[i].quantity == catalog[i].quantity - q
  {
    CheckedBuyIsPurchase(catalog, id, q, card);
    CheckedBuyIsPurchase(Purchase(catalog, id, q).catalog, id, q, card);
    TwoPurchasesCannotOversell(catalog, id, q, i);
  }
}
