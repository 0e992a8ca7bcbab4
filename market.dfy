/**
 * The marketplace coordinator: producers publish products into bounded
 * per-producer outboxes, consumers move products between those outboxes and
 * their carts, and an order returns a cart's contents.
 *
 * Producer and cart ids are dense from 0, so each table the coordinator keeps
 * as a dictionary keyed by id is a sequence indexed by id here, and iterating
 * over producers in insertion order is iterating over indices 0, 1, ...
 * Every call is treated as atomic and the model is sequential.
 */
module Market {
  import opened Lists

  /** Some outbox holds a copy of `p`. */
  predicate Offers<P(==)>(outboxes: seq<seq<P>>, p: P)
  {
    exists k :: 0 <= k < |outboxes| && p in outboxes[k]
  }

  /**
   * The lowest producer id whose outbox holds `p`, or `|outboxes|` when none
   * does: the producer a scan in id order stops at.
   */
  function FirstHolder<P(==)>(outboxes: seq<seq<P>>, p: P): (k: nat)
    ensures k <= |outboxes|
    ensures k < |outboxes| <==> Offers(outboxes, p)
    ensures k < |outboxes| ==> p in outboxes[k]
    ensures forall j :: 0 <= j < k ==> p !in outboxes[j]
  {
    if outboxes == [] then 0
    else if p in outboxes[0] then 0
    else 1 + FirstHolder(outboxes[1..], p)
  }

  /**
   * A claim (one copy of `p` leaves outbox `k` and joins `cart`) conserves
   * the products held by the outboxes and the carts together.
   */
  lemma ClaimConserves<P>(outboxes: seq<seq<P>>, carts: seq<seq<P>>, k: nat, c: nat, p: P)
    requires k < |outboxes| && p in outboxes[k] && c < |carts|
    ensures Total(outboxes[k := RemoveFirst(outboxes[k], p)]) + multiset{p} == Total(outboxes)
    ensures Total(carts[c := carts[c] + [p]]) == Total(carts) + multiset{p}
    ensures Total(outboxes[k := RemoveFirst(outboxes[k], p)]) + Total(carts[c := carts[c] + [p]])
         == Total(outboxes) + Total(carts)
  {
    TotalRemoveAt(outboxes, k, p);
    TotalAppendAt(carts, c, p);
  }

  /**
   * A return (one copy of `p` leaves `cart` and is appended to outbox `k`)
   * conserves the products held by the outboxes and the carts together.
   */
  lemma ReturnConserves<P>(outboxes: seq<seq<P>>, carts: seq<seq<P>>, k: nat, c: nat, p: P)
    requires k < |outboxes| && c < |carts| && p in carts[c]
    ensures Total(outboxes[k := outboxes[k] + [p]]) == Total(outboxes) + multiset{p}
    ensures Total(carts[c := RemoveFirst(carts[c], p)]) + multiset{p} == Total(carts)
    ensures Total(outboxes[k := outboxes[k] + [p]]) + Total(carts[c := RemoveFirst(carts[c], p)])
         == Total(outboxes) + Total(carts)
  {
    TotalAppendAt(outboxes, k, p);
    TotalRemoveAt(carts, c, p);
  }

  /**
   * A claim from outbox `k` followed by a successful return to outbox `k1`
   * (the holder the return's scan finds, which need not be `k`) restores the
   * outboxes' products and the cart's products as multisets, though not
   * necessarily their order or which producer holds them.
   */
  lemma ClaimThenReturn<P>(outboxes: seq<seq<P>>, cart: seq<P>, k: nat, k1: nat, p: P)
    requires k < |outboxes| && p in outboxes[k] && k1 < |outboxes|
    ensures var claimed := outboxes[k := RemoveFirst(outboxes[k], p)];
            Total(claimed[k1 := claimed[k1] + [p]]) == Total(outboxes)
    ensures multiset(RemoveFirst(cart + [p], p)) == multiset(cart)
  {
    var claimed := outboxes[k := RemoveFirst(outboxes[k], p)];
    TotalRemoveAt(outboxes, k, p);
    TotalAppendAt(claimed, k1, p);
    RemoveFirstMultiset(cart + [p], p);
    Cancel(multiset(RemoveFirst(cart + [p], p)), multiset(cart), multiset{p});
  }

  /**
   * When the outboxes hold exactly one copy of `p`, claiming it leaves no
   * outbox offering `p`, so a following return of `p` fails.
   */
  lemma ClaimOnlyCopy<P>(outboxes: seq<seq<P>>, k: nat, p: P)
    requires k < |outboxes| && p in outboxes[k] && Total(outboxes)[p] == 1
    ensures !Offers(outboxes[k := RemoveFirst(outboxes[k], p)], p)
  {
    var claimed := outboxes[k := RemoveFirst(outboxes[k], p)];
    TotalRemoveAt(outboxes, k, p);
    assert Total(claimed)[p] == 0;
    InTotal(claimed, p);
  }

  /**
   * The bookkeeping balances: the outboxes and carts together hold exactly
   * the `published` products, and every product in a cart is recorded in the
   * ledger. Each operation below keeps it, with `published` growing by one
   * copy on a successful publish and staying put otherwise.
   */
  ghost predicate Accounted<P>(outboxes: seq<seq<P>>, ledger: seq<seq<P>>, carts: seq<seq<P>>, published: multiset<P>)
  {
    && Total(outboxes) + Total(carts) == published
    && Total(carts) <= Total(ledger)
  }

  /** Registering a producer (an empty outbox and an empty ledger) keeps the bookkeeping balanced. */
  lemma RegisterKeepsAccounted<P>(outboxes: seq<seq<P>>, ledger: seq<seq<P>>, carts: seq<seq<P>>, published: multiset<P>)
    requires Accounted(outboxes, ledger, carts, published)
    ensures Accounted(outboxes + [[]], ledger + [[]], carts, published)
  {
    TotalAppend(outboxes, []);
    TotalAppend(ledger, []);
  }

  /** Opening an empty cart keeps the bookkeeping balanced. */
  lemma NewCartKeepsAccounted<P>(outboxes: seq<seq<P>>, ledger: seq<seq<P>>, carts: seq<seq<P>>, published: multiset<P>)
    requires Accounted(outboxes, ledger, carts, published)
    ensures Accounted(outboxes, ledger, carts + [[]], published)
  {
    TotalAppend(carts, []);
  }

  /** Publishing `p` into outbox `k` balances once `p` is counted as published. */
  lemma PublishKeepsAccounted<P>(outboxes: seq<seq<P>>, ledger: seq<seq<P>>, carts: seq<seq<P>>, published: multiset<P>,
                                 k: nat, p: P)
    requires Accounted(outboxes, ledger, carts, published)
    requires k < |outboxes|
    ensures Accounted(outboxes[k := outboxes[k] + [p]], ledger, carts, published + multiset{p})
  {
    TotalAppendAt(outboxes, k, p);
  }

  /** A claim from outbox `k` into cart `c`, recorded in ledger `k`, keeps the bookkeeping balanced. */
  lemma ClaimKeepsAccounted<P>(outboxes: seq<seq<P>>, ledger: seq<seq<P>>, carts: seq<seq<P>>, published: multiset<P>,
                               k: nat, c: nat, p: P)
    requires Accounted(outboxes, ledger, carts, published)
    requires k < |outboxes| && k < |ledger| && p in outboxes[k] && c < |carts|
    ensures Accounted(outboxes[k := RemoveFirst(outboxes[k], p)], ledger[k := ledger[k] + [p]],
                      carts[c := carts[c] + [p]], published)
  {
    ClaimConserves(outboxes, carts, k, c, p);
    TotalAppendAt(ledger, k, p);
  }

  /** A return from cart `c` to outbox `k`, with the ledger untouched, keeps the bookkeeping balanced. */
  lemma ReturnKeepsAccounted<P>(outboxes: seq<seq<P>>, ledger: seq<seq<P>>, carts: seq<seq<P>>, published: multiset<P>,
                                k: nat, c: nat, p: P)
    requires Accounted(outboxes, ledger, carts, published)
    requires k < |outboxes| && c < |carts| && p in carts[c]
    ensures Accounted(outboxes[k := outboxes[k] + [p]], ledger, carts[c := RemoveFirst(carts[c], p)], published)
  {
    ReturnConserves(outboxes, carts, k, c, p);
  }

  class Marketplace<P(==)> {
    /** Largest number of products a publish may leave in one outbox (`queue_size_per_producer`). */
    const capacity: int
    /** Number of producers registered so far, and the next producer id. */
    var noProducers: nat
    /** Number of carts created so far, and the next cart id. */
    var noCarts: nat
    /** Products each producer currently offers, by producer id (`producers_dict`). */
    var outboxes: seq<seq<P>>
    /** Products claimed from each producer in claim order, by producer id (`cart_items`). */
    var ledger: seq<seq<P>>
    /** Products in each cart in claim order, by cart id (`carts_dict`). */
    var carts: seq<seq<P>>

    /** Every id handed out so far, and no other, has an outbox, a ledger or a cart. */
    ghost predicate Valid()
      reads this
    {
      && |outboxes| == noProducers
      && |ledger| == noProducers
      && |carts| == noCarts
    }

    /** No outbox holds more than `capacity` products. */
    ghost predicate WithinCapacity()
      reads this
    {
      forall k :: 0 <= k < |outboxes| ==> |outboxes[k]| <= capacity
    }

    constructor (queueSizePerProducer: int)
      ensures Valid() && WithinCapacity()
      ensures capacity == queueSizePerProducer
      ensures noProducers == 0 && noCarts == 0
      ensures outboxes == [] && ledger == [] && carts == []
    {
      capacity := queueSizePerProducer;
      outboxes, ledger, carts := [], [], [];
      noProducers, noCarts := 0, 0;
    }

    /**
     * Hands out the next producer id (the number of producers before the
     * call) and gives that producer an empty outbox and an empty ledger.
     */
    method RegisterProducer() returns (producerId: nat)
      requires Valid()
      modifies this
      ensures Valid()
      ensures producerId == old(noProducers) && noProducers == old(noProducers) + 1
      ensures outboxes == old(outboxes) + [[]] && ledger == old(ledger) + [[]]
      ensures carts == old(carts) && noCarts == old(noCarts)
      ensures old(WithinCapacity()) && capacity >= 0 ==> WithinCapacity()
    {
      producerId := noProducers;
      noProducers := noProducers + 1;
      outboxes := outboxes + [[]];
      ledger := ledger + [[]];
    }

    /**
     * Appends `p` to the producer's outbox when it holds fewer than
     * `capacity` products; otherwise refuses and changes nothing.
     */
    method Publish(producerId: nat, p: P) returns (ok: bool)
      requires Valid() && producerId < noProducers
      modifies this
      ensures Valid()
      ensures ok <==> |old(outboxes)[producerId]| < capacity
      ensures outboxes == if ok then old(outboxes)[producerId := old(outboxes)[producerId] + [p]] else old(outboxes)
      ensures ledger == old(ledger) && carts == old(carts)
      ensures noProducers == old(noProducers) && noCarts == old(noCarts)
      ensures |old(outboxes)[producerId]| <= capacity ==> |outboxes[producerId]| <= capacity
      ensures old(WithinCapacity()) ==> WithinCapacity()
    {
      if |outboxes[producerId]| < capacity {
        outboxes := outboxes[producerId := outboxes[producerId] + [p]];
        return true;
      }
      return false;
    }

    /** Hands out the next cart id (the number of carts before the call) with an empty cart. */
    method NewCart() returns (cartId: nat)
      requires Valid()
      modifies this
      ensures Valid()
      ensures cartId == old(noCarts) && noCarts == old(noCarts) + 1
      ensures carts == old(carts) + [[]]
      ensures outboxes == old(outboxes) && ledger == old(ledger) && noProducers == old(noProducers)
      ensures WithinCapacity() == old(WithinCapacity())
    {
      cartId := noCarts;
      noCarts := noCarts + 1;
      carts := carts + [[]];
    }

    /**
     * Scans the producers in id order; the first whose outbox holds `p`
     * loses its first copy of `p`, which is appended to the cart and to that
     * producer's ledger. When no outbox holds `p`, nothing changes.
     * An unknown cart id is an error only once `p` has been found.
     */
    method AddToCart(cartId: nat, p: P) returns (ok: bool)
      requires Valid() && (cartId < noCarts || !Offers(outboxes, p))
      modifies this
      ensures Valid()
      ensures ok <==> Offers(old(outboxes), p)
      ensures ok ==>
        var k := FirstHolder(old(outboxes), p);
        && outboxes == old(outboxes)[k := RemoveFirst(old(outboxes)[k], p)]
        && ledger == old(ledger)[k := old(ledger)[k] + [p]]
        && carts == old(carts)[cartId := old(carts)[cartId] + [p]]
      ensures !ok ==> outboxes == old(outboxes) && ledger == old(ledger) && carts == old(carts)
      ensures noProducers == old(noProducers) && noCarts == old(noCarts)
      ensures old(WithinCapacity()) ==> WithinCapacity()
    {
      var k := 0;
      while k < noProducers
        invariant k <= noProducers
        invariant forall j :: 0 <= j < k ==> p !in outboxes[j]
        invariant unchanged(this)
      {
        if p in outboxes[k] {
          assert k == FirstHolder(outboxes, p);
          carts := carts[cartId := carts[cartId] + [p]];
          ledger := ledger[k := ledger[k] + [p]];
          outboxes := outboxes[k := RemoveFirst(outboxes[k], p)];
          return true;
        }
        k := k + 1;
      }
      return false;
    }

    /**
     * Scans the producers in id order; the first whose outbox still holds
     * `p` gets one more copy of `p` appended (with no capacity check), and
     * the first copy of `p` leaves the cart. The cart itself is not searched
     * and the ledger is not consulted: when no outbox holds `p` the call
     * fails and nothing changes, whatever the cart holds. When some outbox
     * holds `p` the cart must hold it too (otherwise `list.remove` raises).
     */
    method RemoveFromCart(cartId: nat, p: P) returns (ok: bool)
      requires Valid() && (Offers(outboxes, p) ==> cartId < noCarts && p in carts[cartId])
      modifies this
      ensures Valid()
      ensures ok <==> Offers(old(outboxes), p)
      ensures ok ==>
        var k := FirstHolder(old(outboxes), p);
        && outboxes == old(outboxes)[k := old(outboxes)[k] + [p]]
        && carts == old(carts)[cartId := RemoveFirst(old(carts)[cartId], p)]
      ensures !ok ==> outboxes == old(outboxes) && carts == old(carts)
      ensures ledger == old(ledger)
      ensures noProducers == old(noProducers) && noCarts == old(noCarts)
    {
      var k := 0;
      while k < noProducers
        invariant k <= noProducers
        invariant forall j :: 0 <= j < k ==> p !in outboxes[j]
        invariant unchanged(this)
      {
        if p in outboxes[k] {
          assert k == FirstHolder(outboxes, p);
          outboxes := outboxes[k := outboxes[k] + [p]];
          carts := carts[cartId := RemoveFirst(carts[cartId], p)];
          return true;
        }
        k := k + 1;
      }
      return false;
    }

    /** The cart's current contents in claim order; no state changes. */
    method PlaceOrder(cartId: nat) returns (order: seq<P>)
      requires Valid() && cartId < noCarts
      ensures order == carts[cartId]
    {
      order := carts[cartId];
    }
  }

  /** Placing the same order twice, with nothing in between, yields the same products. */
  method PlaceOrderTwice<P(==)>(market: Marketplace<P>, cartId: nat) returns (first: seq<P>, second: seq<P>)
    requires market.Valid() && cartId < market.noCarts
    ensures first == second == market.carts[cartId]
  {
    first := market.PlaceOrder(cartId);
    second := market.PlaceOrder(cartId);
  }
}
