/**
 * The scenarios of the marketplace's unit tests, each run on a fresh
 * marketplace whose outboxes hold at most five products, plus two scenarios
 * about the capacity check and about removal.
 */
module MarketTests {
  import opened Lists
  import opened Market

  /** A product as the tests build it: a name and a price. */
  datatype Product = Product(name: string, price: int)

  const Prod1 := Product("prod1", 10)
  const Prod2 := Product("prod2", 10)

  /** Two registrations hand out ids 0 and 1. */
  method TestRegister() returns (first: nat, second: nat)
    ensures first == 0 && second == 1
  {
    var market := new Marketplace<Product>(5);
    first := market.RegisterProducer();
    second := market.RegisterProducer();
  }

  /** Two fresh producers get ids 0 and 1, and each can publish into its empty outbox. */
  method TestPublish() returns (id0: nat, id1: nat, published0: bool, published1: bool)
    ensures id0 == 0 && id1 == 1
    ensures published0 && published1
  {
    var market := new Marketplace<Product>(5);
    id0 := market.RegisterProducer();
    id1 := market.RegisterProducer();
    published0 := market.Publish(0, Prod1);
    published1 := market.Publish(1, Prod2);
  }

  /** Two new carts get ids 0 and 1. */
  method TestCart() returns (first: nat, second: nat)
    ensures first == 0 && second == 1
  {
    var market := new Marketplace<Product>(5);
    first := market.NewCart();
    second := market.NewCart();
  }

  /** A product published by producer 0 can be added to cart 0. */
  method TestAdd() returns (producer: nat, published: bool, cart: nat, added: bool)
    ensures producer == 0 && published && cart == 0 && added
  {
    var market := new Marketplace<Product>(5);
    producer := market.RegisterProducer();
    published := market.Publish(0, Prod1);
    cart := market.NewCart();
    added := market.AddToCart(0, Prod1);
  }

  /**
   * Once the only published copy is in the cart no outbox holds it, so
   * removing it from the cart fails although the cart holds it.
   */
  method TestRemove() returns (producer: nat, published: bool, cart: nat, added: bool,
                               removed: bool, inCart: seq<Product>)
    ensures producer == 0 && published && cart == 0 && added
    ensures !removed && inCart == [Prod1]
  {
    var market := new Marketplace<Product>(5);
    producer := market.RegisterProducer();
    published := market.Publish(0, Prod1);
    cart := market.NewCart();
    added := market.AddToCart(0, Prod1);
    removed := market.RemoveFromCart(0, Prod1);
    inCart := market.PlaceOrder(0);
  }

  /** An order after publishing and adding one product is exactly that product. */
  method TestOrder() returns (producer: nat, published: bool, cart: nat, added: bool,
                              products: seq<Product>)
    ensures producer == 0 && published && cart == 0 && added
    ensures products == [Prod1]
  {
    var market := new Marketplace<Product>(5);
    producer := market.RegisterProducer();
    published := market.Publish(0, Prod1);
    cart := market.NewCart();
    added := market.AddToCart(0, Prod1);
    products := market.PlaceOrder(0);
  }

  /** With capacity 1 a second publish before any claim is refused. */
  method PublishIntoFullOutbox() returns (first: bool, second: bool, offered: seq<Product>)
    ensures first && !second && offered == [Prod1]
  {
    var market := new Marketplace<Product>(1);
    var producer := market.RegisterProducer();
    first := market.Publish(producer, Prod1);
    second := market.Publish(producer, Prod1);
    offered := market.outboxes[producer];
  }

  /**
   * A marketplace where producer 0 published two copies of `Prod1` and
   * cart 0 claimed one of them.
   */
  method OneOfTwoClaimed() returns (market: Marketplace<Product>)
    ensures fresh(market) && market.Valid()
    ensures |market.outboxes| == 1 && market.outboxes[0] == [Prod1]
    ensures |market.carts| == 1 && market.carts[0] == [Prod1]
  {
    market := new Marketplace<Product>(5);
    var producer := market.RegisterProducer();
    var first := market.Publish(producer, Prod1);
    assert market.outboxes[producer] == [Prod1];
    var second := market.Publish(producer, Prod1);
    assert market.outboxes[producer] == [Prod1, Prod1];
    var cart := market.NewCart();
    assert FirstHolder(market.outboxes, Prod1) == producer;
    var added := market.AddToCart(cart, Prod1);
  }

  /**
   * With a second copy still on offer, removing succeeds: the cart empties
   * and the producer's outbox holds two copies again.
   */
  method RemoveWhileStillOffered() returns (removed: bool, offered: seq<Product>, inCart: seq<Product>)
    ensures removed && offered == [Prod1, Prod1] && inCart == []
  {
    var market := OneOfTwoClaimed();
    assert FirstHolder(market.outboxes, Prod1) == 0;
    assert RemoveFirst([Prod1], Prod1) == [];
    removed := market.RemoveFromCart(0, Prod1);
    offered := market.outboxes[0];
    inCart := market.PlaceOrder(0);
  }
}
