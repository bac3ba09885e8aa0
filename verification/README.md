# Inventory server: a Dafny model

This project models the inventory logic of `project_server.py`, a small Flask
service that keeps a catalog of products (id, description, price, quantity)
in `products.json`. It has three handlers:

- **query** returns the fields of a product;
- **buy** checks a purchase request, then lowers a product's stock and
  charges `price * quantity`, or refuses with "insufficient stock";
- **replenish** checks a restock request, then raises a product's stock.

Each handler reloads the catalog from the file and scans it in list order.
The first product whose id matches is the one used. Buy and replenish change
that product's quantity in place and save the list back, under one global
lock.

Modules:

- `Wrappers` (wrappers.dfy): `Option`.
- `Catalog` (catalog.dfy): `Product`, the first-match lookup `FindFirst`, and
  the single-entry update `WithQuantity`.
- `Validation` (validation.dfy): the JSON `quantity` field as `Quantity`
  (absent or null, integer, or anything else). It also holds Python's
  `str.strip()` and `int()` rules for the card, and the two check chains
  `BuyRequestError` and `ReplenishRequestError`.
- `Inventory` (inventory.dfy): the reply datatype `Response`. Its `Status()`
  keeps the 200/400/404 codes as data. Each handler is a specification
  function of the loaded catalog: `BuyStep` and `ReplenishStep` return a
  reply and the saved catalog, and `QueryResult` returns a reply. The lemmas
  state what the handlers promise.
- `Server` (server.dfy): the class `Store`. Its field `products` is the
  module-level list and `stored` is the file. The methods `Load`, `Save`,
  `Query`, `Buy` and `Replenish` follow the handlers. The `with lock:`
  sections are `PurchaseUnderLock` and `RestockUnderLock`. `Query`, `Buy`,
  `Replenish` and the two locked sections are proved equal to their
  specification functions; `Load` and `Save` state the list and the file
  they leave.

Three behaviours of the code worth noting:

- **Card check.** The code tests `len(card.strip())` and then calls
  `int(card)`, not an all-digits test. So a sixteen-character card such as
  `-123456789012345` or `1234_5678_9012_3` passes with fewer than sixteen
  digits (`SignedCardAccepted`; the second meets the precondition of
  `UnpaddedCardAccepted`). The two calls also skip different whitespace:
  `strip()` removes the separators U+001C to U+001F and `int()` does not, so
  sixteen digits behind U+001C pass the length check and fail the number
  check (`SeparatorPaddedCardRejected`).
- **The id.** It comes from the `<int:id>` route converter, so it is a
  non-negative integer (`nat`). The "missing product id" and "must be zero or
  a positive integer" checks can never fire.
- **Missing file.** The code does not fall back to an empty catalog.
  `load_products` sets the list to `[]` and the next `products["products"]`
  fails. The model keeps no such fallback: the file always exists.

## Model

| member | source | states |
|---|---|---|
| Catalog.FindFirst | project_server.py:77-79 | finds the index of the first product with the id, or reports that no product has it |
| Catalog.WithQuantity | project_server.py:81-113 | changes only the quantity of entry i; every other entry and field stays the same |
| Catalog.FindFirstIgnoresQuantities | project_server.py:110-112 | a lookup depends only on the ids, so a quantity change never moves the first match |
| Validation.IsSpace | project_server.py:67 | exactly the characters `str.isspace()` holds of, which `strip()` removes; none is a digit, sign or underscore |
| Validation.IntSpace | project_server.py:70 | the characters `int()` skips: only the C whitespace below U+0080 (tab to carriage return, and space), and every `str.isspace()` character above; so `str.isspace()`'s set without U+001C to U+001F |
| Validation.LeadingSpaces | project_server.py:67 | counts the leading characters of a whitespace set (`strip()`'s or `int()`'s): every counted character is in the set and the next one is not |
| Validation.TrailingSpaces | project_server.py:67 | counts the trailing characters of a whitespace set: every counted character is in the set and the one before is not |
| Validation.Strip | project_server.py:67 | `card.strip()` with Python's whitespace set: both ends are non-space; empty only for all-space input; unchanged when the ends are not space |
| Validation.LeadingSpacesOf | project_server.py:67 | whitespace in front of a non-space character is counted exactly |
| Validation.TrailingSpacesOf | project_server.py:67 | whitespace behind a non-space character is counted exactly |
| Validation.StripSurrounded | project_server.py:67 | stripping whitespace-wrapped text gives back exactly that text |
| Validation.StripsAgree | project_server.py:67-70 | when the text `int()` reads has non-space ends, `strip()` removes exactly what `int()` skipped |
| Validation.IntParsable | project_server.py:70 | `int(card)` succeeds only on a text that, after `int()`'s own whitespace is skipped, starts with a sign or a digit, ends with a digit and holds only digits and underscores |
| Validation.CardError | project_server.py:67-72 | a refused card gets one of the two card reasons; an accepted card strips to sixteen characters, and they are exactly the ones `int()` parsed |
| Validation.BuyRequestError | project_server.py:61-72 | a refusal is one of the five buy reasons; a request that passes has a non-negative integer quantity and a card |
| Validation.ReplenishRequestError | project_server.py:102-105 | a refusal is "missing quantity" or "invalid quantity"; a request that passes has a non-negative integer quantity |
| Validation.BuyCheckOrder | project_server.py:61-72 | each buy reason is given exactly when its own check fails and every earlier one passed; a request passes exactly when all five pass |
| Validation.ReplenishCheckOrder | project_server.py:102-105 | "missing quantity" comes before "invalid quantity"; a request passes exactly when the quantity is an integer >= 0 |
| Validation.ZeroQuantityAccepted | project_server.py:63-64 | a quantity of 0 passes both check chains |
| Validation.SixteenDigitCardAccepted | project_server.py:67-72 | any sixteen decimal digits pass both card checks |
| Validation.PaddedCardAccepted | project_server.py:67-72 | whitespace that `int()` skips (a space, a newline, any non-ASCII space), put around sixteen digits, is ignored by both the length check and `int()` |
| Validation.SeparatorPaddedCardRejected | project_server.py:67-72 | sixteen digits behind U+001C pass the length check but are refused with "card number should be 16 digits" |
| Validation.UnpaddedCardAccepted | project_server.py:67-72 | a sixteen-character card with non-space ends passes when a digit run follows its optional sign |
| Validation.SignedCardAccepted | project_server.py:69-72 | a sign followed by fifteen digits passes: the check does not demand sixteen digits |
| Validation.GroupedCardAccepted | project_server.py:69-72 | fifteen digits with one underscore between two of them pass |
| Validation.StrayCharacterCardRejected | project_server.py:69-72 | a sixteen-character card with a character that is neither a digit nor an underscore after its first position is refused with "card number should be 16 digits" |
| Validation.LetterCardRejected | project_unittest.py:89-90 | the test's card "HKCERTCTF2022WFC" is refused with "card number should be 16 digits" |
| Inventory.QueryResult | project_server.py:43-48 | the reply is a product of the catalog with the id, or 404 "id not found" |
| Inventory.Purchase | project_server.py:76-90 | the reply is a success, 404 "product id does not exist" or "insufficient stock"; a success leaves a non-negative quantity; ids stay in place; nothing is written unless it succeeds; non-negative quantities stay so |
| Inventory.Restock | project_server.py:109-116 | the reply is the new quantity or 404 "product id does not exist"; ids stay in place; nothing is written on a 404; non-negative quantities stay so |
| Inventory.BuyStep | project_server.py:52-90 | the buy handler never replies as a query or a restock; ids stay in place; only a success writes; non-negative quantities stay so |
| Inventory.ReplenishStep | project_server.py:94-116 | the replenish handler replies with a new quantity, 404 or 400; ids stay in place; only a success writes; non-negative quantities stay so |
| Inventory.Handle | project_server.py:39-116 | no request changes the catalog's length or any id; any reply other than a success leaves the catalog as it was; if every quantity is >= 0 before, every quantity is >= 0 after |
| Inventory.Replay | project_server.py:39-116 | a series of requests handled one at a time keeps the same ids in the same order |
| Inventory.RejectedRequestChangesNothing | project_server.py:57-74 | a request that fails a check gets 400 with that reason, and the catalog is unchanged |
| Inventory.QueryFindsFirst | project_server.py:43-48 | query returns the first product with the id, or 404 "id not found" exactly when no product has it |
| Inventory.PurchaseSucceeds | project_server.py:80-85 | when the first match holds at least q: amount = price * q, quantity_left = old - q, and only that entry's quantity changes |
| Inventory.PurchaseInsufficient | project_server.py:87-88 | when the first match holds less than q: 400 "insufficient stock" with the current quantity, and the catalog is unchanged |
| Inventory.RestockAddsExactly | project_server.py:110-115 | the first match's quantity rises by exactly q and is returned as new_quantity; nothing else changes |
| Inventory.UnknownIdNotFound | project_server.py:43-116 | an absent id gives 404 ("id not found" from query, "product id does not exist" from buy and replenish), and the catalog is unchanged |
| Inventory.LaterDuplicateUntouched | project_server.py:44-46 | with duplicate ids, the later entry is never changed, and query shows an earlier one |
| Inventory.QueryAfterMutation | project_server.py:113-115 | after a successful purchase or any restock of the first match, a query of the saved catalog shows that product with its new quantity |
| Inventory.ReplayKeepsNonNegative | project_server.py:104 | quantities stay >= 0 over any series of requests handled one at a time |
| Inventory.TwoPurchasesCannotOversell | project_server.py:80-88 | two purchases of q in sequence on stock Q with q <= Q < 2q: the first succeeds, the second gets "insufficient stock", and Q - q remains |
| Inventory.TwoPurchasesBothSucceed | project_server.py:80-85 | two purchases of q in sequence on stock Q >= 2q both succeed, and Q - 2q remains: no update is lost |
| Inventory.ZeroQuantityBuyChangesNothing | project_server.py:63-85 | a buy of 0 with a valid card on an existing product succeeds with amount 0, reports the stock on hand and leaves the catalog as it was |
| Inventory.CheckedBuyIsPurchase | project_server.py:61-77 | a buy with a non-negative integer quantity and a sixteen-digit card goes straight to the purchase |
| Inventory.TwoBuysCannotOversell | project_unittest.py:99-111 | the same through the whole buy handler with the test's sixteen-digit card |
| Server.Lookup | project_server.py:44-48 | the scan loop returns the reply that QueryResult specifies |
| Server.Store.constructor | project_server.py:6 | the list starts empty and the file holds the given catalog |
| Server.Store.Load | project_server.py:25-29 | the list becomes the file's catalog, and the file is unchanged |
| Server.Store.Save | project_server.py:33-35 | the file becomes exactly the list |
| Server.Store.Query | project_server.py:39-48 | replies as QueryResult specifies; the file is unchanged |
| Server.Store.Buy | project_server.py:52-72 | reply and saved file are as BuyStep specifies; a rejected request touches neither the list nor the file |
| Server.Store.PurchaseUnderLock | project_server.py:74-90 | reload, first-match scan and in-place decrement give the reply and file that Purchase specifies |
| Server.Store.Replenish | project_server.py:94-105 | reply and saved file are as ReplenishStep specifies; a rejected request touches neither the list nor the file |
| Server.Store.RestockUnderLock | project_server.py:107-116 | reload, first-match scan and in-place increment give the reply and file that Restock specifies |

## Left out

- Flask routing, `jsonify`, `json.loads(request.data)` and the server start-up (project_server.py:1-3, 119-120). Status codes survive only as `Response.Status()`. A request body that is not a JSON object makes the handler raise; this is not modelled.
- The execution id (project_server.py:11-20). It comes from a TCP daytime query hashed with SHA-256, and it is the same opaque string on every reply, so replies here do not carry it.
- JSON file I/O. The file is the `stored` field. A missing file, an unreadable file, and fields of other JSON types are not modelled. Examples of other types: a float price, which `int()` would truncate, or a boolean id, which Python compares equal to 0 or 1.
- The lock and threads (project_server.py:7, 74, 107). Each call is one atomic step, and a series of requests is their sequential composition (`Replay`). So the model does not cover one race: `query_product` reloads the shared module-level list without taking the lock, and a buy that saves after such a reload would write back the unchanged list.
- A card that is not a string. `card.strip()` raises on it, so the model's card is an optional string.
- Validation.IntParsable: only ASCII digits count as digits. Python's `int()` also accepts other Unicode decimal digits (and `strip()` keeps them), so the model refuses some cards that the source accepts; it accepts no card that the source refuses.
