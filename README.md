# Marketplace coordinator, modelled in Dafny

This project models the `Marketplace` class of a producer/consumer
marketplace (`marketplace.py`). Producers register and publish products
into their own bounded outbox. Consumers open carts, add products (a claim:
one copy moves from an outbox into the cart), remove products, and place
orders. The coordinator keeps five pieces of state:

- the producer counter `no_producers`, and the cart counter `no_carts`;
- `producers_dict`, the outbox of each producer;
- `carts_dict`, the contents of each cart;
- `cart_items`, a ledger of the products claimed from each producer.

Ids are handed out densely from 0, and Python dictionaries iterate in
insertion order. So each dictionary is a `seq<seq<P>>` indexed by id, and
"for each producer" is a scan over indices 0, 1, ... `P` is the product
type. It is opaque apart from equality: the `Product` class is not part of
this model.

Files:

- `lists.dfy` (module `Lists`): the Python list operations the class relies
  on. `RemoveFirst` is `list.remove`. `Total` is the multiset of all products
  in a table of lists. It comes with lemmas on how appending and removing
  change that multiset.
- `market.dfy` (module `Market`): the class `Marketplace`, with one method
  per operation and `modifies this`. Each method's `ensures` gives the whole
  new state in terms of the old one. Beside the class are pure lemmas about
  exactly those state changes:
  - which producer a scan finds (`FirstHolder`);
  - conservation of products across outboxes and carts for a claim and for
    a return;
  - the add-then-remove round trip;
  - the bookkeeping invariant `Accounted`, which each operation preserves.
    It says the outboxes and carts together hold exactly what was published,
    and every product in a cart is in the ledger.
- `market_tests.dfy` (module `MarketTests`): the scenarios of the source's
  `TestMarketplace` unit tests as methods whose `ensures` are the tests'
  assertions. It adds two more scenarios: the capacity check, and a remove
  that succeeds.

## Where the code and the intended design differ

The model follows the code.

- `remove_from_cart` does not look in the cart and does not use the
  `cart_items` ledger. It scans the producers' outboxes for the product.
  The first producer still offering the product gets one more copy. The
  product then leaves the cart. If no outbox holds the product, the call
  returns false, even when the cart holds it (`marketplace.py:177-183`). The
  unit test at `marketplace.py:52` expects exactly this. The intended design
  instead has the product go back to the producer it came from, through the
  ledger, whenever the cart holds it.
- On a claim, the producer chosen is the lowest id whose outbox holds the
  product (dictionary insertion order). The design leaves this choice open.
- The ledger records bare products per producer, not (producer, product)
  pairs per cart.
- A returned product is appended without a capacity check, so a remove can
  push an outbox above capacity.

## Model

| member | source | states |
|---|---|---|
| `Lists.RemoveFirst` | marketplace.py:159 | `list.remove(x)`: the result is the list minus its first element equal to `x`, everything before and after in order; one element shorter; `x` must be present (ValueError otherwise) |
| `Lists.RemoveFirstMultiset` | marketplace.py:159 | `list.remove(x)` takes exactly one copy of `x` and no other product |
| `Market.FirstHolder` | marketplace.py:155-156 | the producer a scan in id order stops at: the lowest id whose outbox holds `p`; it is below the producer count exactly when some outbox holds `p`, and no earlier outbox holds `p` |
| `Market.ClaimConserves` | marketplace.py:157-159 | moving one copy of `p` from outbox `k` to a cart takes one `p` from the outboxes' multiset, adds one to the carts', and keeps their union |
| `Market.ReturnConserves` | marketplace.py:179-180 | moving one copy of `p` from a cart back to an outbox adds one `p` to the outboxes, takes one from the carts, and keeps their union |
| `Market.ClaimThenReturn` | marketplace.py:155-183 | an add followed by a successful remove of the same product restores the outboxes' multiset and the cart's multiset, whichever outbox the return goes to |
| `Market.ClaimOnlyCopy` | marketplace.py:177-183 | if the outboxes hold exactly one copy of `p`, then after it is claimed no outbox offers `p`, so a remove of `p` fails |
| `Market.RegisterKeepsAccounted` | marketplace.py:96-99 | a new empty outbox and empty ledger keep the bookkeeping invariant |
| `Market.PublishKeepsAccounted` | marketplace.py:118-119 | appending `p` to an outbox keeps the invariant once `p` counts as published |
| `Market.NewCartKeepsAccounted` | marketplace.py:134-136 | a new empty cart keeps the bookkeeping invariant |
| `Market.ClaimKeepsAccounted` | marketplace.py:157-159 | a claim, recorded in the producer's ledger, keeps all published products in outboxes or carts and every cart product in the ledger |
| `Market.ReturnKeepsAccounted` | marketplace.py:179-180 | a return, with the ledger untouched, keeps the bookkeeping invariant |
| `Market.Marketplace.constructor` | marketplace.py:68-87 | capacity as given, both counters 0, no outboxes, ledgers or carts |
| `Market.Marketplace.RegisterProducer` | marketplace.py:91-101 | returns the producer count from before the call and increments it by one; the new id gets an empty outbox and ledger; existing outboxes, ledgers and carts unchanged; capacity bound kept when the capacity is non-negative (a negative capacity, which `__init__` accepts, makes even the new empty outbox exceed it) |
| `Market.Marketplace.Publish` | marketplace.py:105-123 | succeeds iff the producer's outbox holds fewer than `capacity` products; then `p` is appended at its end, otherwise nothing changes; an outbox within capacity stays within it |
| `Market.Marketplace.NewCart` | marketplace.py:127-138 | returns the cart count from before the call and increments it by one; the new cart is empty; nothing else changes |
| `Market.Marketplace.AddToCart` | marketplace.py:143-163 | succeeds iff some outbox holds `p`; then the lowest such producer loses its first `p`, and `p` is appended to the cart and to that producer's ledger; otherwise nothing changes; an unknown cart id is an error only when `p` is found |
| `Market.Marketplace.RemoveFromCart` | marketplace.py:167-183 | succeeds iff some outbox holds `p`; then the lowest such producer's outbox gets `p` appended, with no capacity check, and the first `p` leaves the cart; the ledger never changes; on failure nothing changes |
| `Market.Marketplace.PlaceOrder` | marketplace.py:186-198 | returns the cart's current contents in claim order and changes no state |
| `Market.PlaceOrderTwice` | marketplace.py:193-198 | two orders of the same cart with nothing in between return the same products, the cart's contents |
| `MarketTests.TestRegister` | marketplace.py:27-29 | two registrations return 0 then 1 |
| `MarketTests.TestPublish` | marketplace.py:31-35 | the two registrations return 0 and 1, and both publishes return true |
| `MarketTests.TestCart` | marketplace.py:37-39 | two new carts get ids 0 then 1 |
| `MarketTests.TestAdd` | marketplace.py:41-45 | register returns 0, publish returns true, new cart returns 0, and the add returns true |
| `MarketTests.TestRemove` | marketplace.py:47-52 | register returns 0, publish returns true, new cart returns 0, the add returns true; after that claim of the only published copy, the remove returns false and the cart still holds the product |
| `MarketTests.TestOrder` | marketplace.py:54-60 | register returns 0, publish returns true, new cart returns 0, the add returns true, and the order returns exactly `[prod1]` |
| `MarketTests.PublishIntoFullOutbox` | marketplace.py:117-123 | with capacity 1, a second publish before any claim is refused and the outbox keeps one copy |
| `MarketTests.RemoveWhileStillOffered` | marketplace.py:177-183 | with a second copy still on offer, a remove succeeds: the cart empties and the outbox holds two copies again |

## Left out

- Threads and locks (`marketplace.py:77-80` and the `with` blocks): each call is treated as atomic, and the model is sequential. `add_to_cart` and `remove_from_cart` take no lock in the source, so their races are not modelled.
- `consumer.py` and `producer.py`: retry loops around `sleep` that run in threads; the producer loop never ends. They have no sequential result beyond the marketplace contracts.
- Logging (`marketplace.py:14-17` and every `log.info`) and the `print` loop in `place_order` (`marketplace.py:195-196`): output only, with no effect on state.
- The `Product` class is not part of this model; products are an opaque type compared by equality.
- Aliasing: `place_order` returns the live list object, not a copy. The model returns the sequence value, so a caller mutating the returned list is not modelled.
- Unknown producer or cart ids raise KeyError or TypeError in Python. They are preconditions here, stated exactly where the source raises. `add_to_cart` with an unknown cart fails only when the product is found. `remove_from_cart` needs a valid cart only when some outbox holds the product.
- Market.Marketplace.RemoveFromCart: when some outbox holds the product but the cart does not, Python appends the copy to the outbox and then raises ValueError, leaving that extra copy behind; likewise, when some outbox holds the product but the cart id is unknown, Python appends the copy to the outbox (line 179) and then raises KeyError (line 180). Both cases are excluded by the precondition, so neither half-done state is modelled.
- Conservation and the `Accounted` invariant are proved as lemmas about the exact new state each method's `ensures` describes. They are not class invariants over a ghost history.
- `unittest.main()` (`marketplace.py:200-201`).
