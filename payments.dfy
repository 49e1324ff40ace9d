/** packages/payments: the pricing table, a user's subscription with its product, and
    checkout sessions. Currency formatting (`Intl.NumberFormat`) is a parameter. */
module Payments {
  import opened Wrappers
  import opened Utils
  import opened DbRecords
  import opened Keyed
  import opened Db

  const CheckoutPrefix: string := "https://checkout.example.com/session/"
  const ProductNotFound: string := "Product not found"

  /** `{ ...product, formattedPrice }` */
  datatype PricingPlan = PricingPlan(product: Product, formattedPrice: string)

  /** `getPricingTable()`; `formatCurrency` is `formatCurrency` of `utils`. */
  function PricingTable(products: seq<Product>, formatCurrency: int -> string): (plans: seq<PricingPlan>)
    ensures |plans| == |products|
    ensures forall k :: 0 <= k < |products| ==> plans[k].product == products[k]
    ensures forall k :: 0 <= k < |products| ==>
      plans[k].formattedPrice == formatCurrency(products[k].priceCents) + "/" + IntervalName(products[k].interval)
  {
    if products == [] then []
    else
      var p := products[0];
      [PricingPlan(p, formatCurrency(p.priceCents) + "/" + IntervalName(p.interval))] + PricingTable(products[1..], formatCurrency)
  }

  /** Adding a product adds its plan at the end of the table. */
  lemma {:induction false} PricingTableAppend(products: seq<Product>, p: Product, formatCurrency: int -> string)
    ensures PricingTable(products + [p], formatCurrency)
            == PricingTable(products, formatCurrency) + [PricingPlan(p, formatCurrency(p.priceCents) + "/" + IntervalName(p.interval))]
  {
    if products != [] {
      assert (products + [p])[1..] == products[1..] + [p];
      PricingTableAppend(products[1..], p, formatCurrency);
    }
  }

  /** `getSubscriptionForUser(userId)`: the user's first subscription and its product,
      or nothing when either is missing. */
  function SubscriptionForUser(subscriptions: seq<Subscription>, products: seq<Product>, userId: string)
    : (r: Option<(Subscription, Product)>)
    ensures FirstWith(subscriptions, SubscriptionUser, userId) < 0 ==> r.None?
    ensures r.Some? ==> var (s, p) := r.value;
      && s == subscriptions[FirstWith(subscriptions, SubscriptionUser, userId)]
      && s.userId == userId
      && 0 <= FirstWith(products, ProductId, s.productId)
      && p == products[FirstWith(products, ProductId, s.productId)]
      && p.id == s.productId
    ensures r.None? ==>
      || FirstWith(subscriptions, SubscriptionUser, userId) < 0
      || FirstWith(products, ProductId, subscriptions[FirstWith(subscriptions, SubscriptionUser, userId)].productId) < 0
  {
    var i := FirstWith(subscriptions, SubscriptionUser, userId);
    if i < 0 then None
    else
      var j := FirstWith(products, ProductId, subscriptions[i].productId);
      if j < 0 then None else Some((subscriptions[i], products[j]))
  }

  /** Only the first subscription of a user counts: one added later changes nothing. */
  lemma {:induction false} LaterSubscriptionIgnored(subscriptions: seq<Subscription>, products: seq<Product>,
                                                    s: Subscription, userId: string)
    requires FirstWith(subscriptions, SubscriptionUser, userId) >= 0
    ensures SubscriptionForUser(subscriptions + [s], products, userId) == SubscriptionForUser(subscriptions, products, userId)
  {
    var i := FirstWith(subscriptions, SubscriptionUser, userId);
    var k := FirstWith(subscriptions + [s], SubscriptionUser, userId);
    assert (subscriptions + [s])[i] == subscriptions[i];
    assert 0 <= k <= i;
    assert (subscriptions + [s])[k] == subscriptions[k];
  }

  datatype CheckoutSession = CheckoutSession(id: string, url: string, product: Product)

  /** `createCheckoutSession(productId)`; `random` are the session id's random bytes. */
  function CreateCheckoutSession(products: seq<Product>, productId: string, random: Entropy): (r: Result<CheckoutSession>)
    ensures r.Failure? <==> forall k :: 0 <= k < |products| ==> products[k].id != productId
    ensures r.Failure? ==> r.message == ProductNotFound
    ensures r.Success? ==>
      && r.value.product.id == productId && r.value.product in products
      && r.value.product == products[FirstWith(products, ProductId, productId)]
      && r.value.id == CreateId(Evt, random)
      && r.value.url == CheckoutPrefix + r.value.id
  {
    var j := FirstWith(products, ProductId, productId);
    if j < 0 then Failure(ProductNotFound)
    else
      var id := CreateId(Evt, random);
      Success(CheckoutSession(id, CheckoutPrefix + id, products[j]))
  }
}
