/**
 * The subscription webhook mapping of lib/payments/stripe.ts. The provider's remote
 * answers (the retrieved subscription, the price list) and the store's answer to the
 * `updateSubscription` mutation are inputs; each handler yields the calls it issues
 * and how it completes.
 */
module Payments {
  import opened Wrappers

  /** An expanded product object. */
  datatype Product = Product(id: string, name: string)

  /** A price's `product` field: an id string, an expanded product, or a deleted product (no name). */
  datatype ProductRef = ProductId(id: string) | Expanded(product: Product) | Deleted(id: string)

  datatype Recurring = Recurring(interval: string, trialPeriodDays: Option<int>)

  datatype Price = Price(
    id: string,
    product: ProductRef,
    unitAmount: Option<int>,
    currency: string,
    recurring: Option<Recurring>)

  datatype LineItem = LineItem(price: Price)

  datatype Subscription = Subscription(
    id: string,
    customer: string,
    status: string,
    metadata: map<string, string>,
    items: seq<LineItem>)

  datatype CheckoutSession = CheckoutSession(
    customer: string,
    subscription: string,
    clientReferenceId: Option<string>)

  /** The argument record of the `updateSubscription` mutation. */
  datatype MutationArgs = MutationArgs(
    userId: string,
    stripeCustomerId: string,
    stripeSubscriptionId: string,
    stripeProductId: Option<string>,
    planName: Option<string>,
    subscriptionStatus: string)

  /** An external call a handler issues. */
  datatype Call = Retrieve(subscriptionId: string) | UpdateSubscription(args: MutationArgs)

  datatype WebhookError =
    | ProviderLookupError(reason: string)
    | StoreWriteError(reason: string)
      /** the TypeError raised when the retrieved subscription has no first line item */
    | MissingLineItem

  /** What the store answers to the mutation. */
  datatype StoreReply = Stored | StoreFailed(reason: string)

  /** A handler returns normally or throws. */
  datatype Completion = Returned | Threw(error: WebhookError)

  datatype HandlerRun = HandlerRun(calls: seq<Call>, completion: Completion)

  /** The completion after awaiting the mutation: a store failure is re-thrown unchanged. */
  function Rethrow(reply: StoreReply): (c: Completion)
    ensures c == Returned <==> reply == Stored
    ensures reply.StoreFailed? ==> c == Threw(StoreWriteError(reply.reason))
  {
    match reply
    case Stored => Returned
    case StoreFailed(reason) => Threw(StoreWriteError(reason))
  }

  /** `items.data[0]?.price` */
  function FirstPrice(items: seq<LineItem>): (p: Option<Price>)
    ensures p.Some? <==> |items| > 0
    ensures p.Some? ==> p.value == items[0].price
  {
    if |items| == 0 then None else Some(items[0].price)
  }

  /** `(product as Stripe.Product).id`: undefined when the product is only an id string. */
  function ProductField(p: ProductRef): (id: Option<string>)
    ensures id.Some? <==> !p.ProductId?
    ensures p.Expanded? ==> id == Some(p.product.id)
    ensures p.Deleted? ==> id == Some(p.id)
  {
    match p
    case ProductId(_) => None
    case Expanded(product) => Some(product.id)
    case Deleted(id) => Some(id)
  }

  /** `(product as Stripe.Product).name`: only an expanded product has one. */
  function NameField(p: ProductRef): (name: Option<string>)
    ensures name.Some? <==> p.Expanded?
    ensures p.Expanded? ==> name == Some(p.product.name)
  {
    match p
    case Expanded(product) => Some(product.name)
    case _ => None
  }

  /** `x || fallback` on an optional string. */
  function OrElse(x: Option<string>, fallback: string): (s: string)
    ensures Truthy(x) ==> s == x.value
    ensures !Truthy(x) ==> s == fallback
  {
    if Truthy(x) then x.value else fallback
  }

  /** `metadata.userId` */
  function MetadataUserId(metadata: map<string, string>): (u: Option<string>)
    ensures u.Some? <==> "userId" in metadata
    ensures u.Some? ==> u.value == metadata["userId"]
  {
    if "userId" in metadata then Some(metadata["userId"]) else None
  }

  /**
   * `handleCheckoutCompleted`. `retrieved` is the answer of the remote subscription
   * lookup, consulted only once the session carries a user id.
   */
  function HandleCheckoutCompleted(
    session: CheckoutSession, retrieved: Result<Subscription, string>, reply: StoreReply): (run: HandlerRun)
    ensures !Truthy(session.clientReferenceId) ==> run == HandlerRun([], Returned)
    ensures Truthy(session.clientReferenceId) ==>
              |run.calls| >= 1 && run.calls[0] == Retrieve(session.subscription)
    ensures Truthy(session.clientReferenceId) && retrieved.Err? ==>
              run == HandlerRun([Retrieve(session.subscription)], Threw(ProviderLookupError(retrieved.error)))
    ensures Truthy(session.clientReferenceId) && retrieved.Ok? && |retrieved.value.items| == 0 ==>
              run == HandlerRun([Retrieve(session.subscription)], Threw(MissingLineItem))
    ensures forall i :: 0 <= i < |run.calls| && run.calls[i].UpdateSubscription? ==>
              i == 1 && |run.calls| == 2 && retrieved.Ok? && |retrieved.value.items| > 0
  {
    var userId := session.clientReferenceId;
    if !Truthy(userId) then
      HandlerRun([], Returned)
    else
      var lookup := Retrieve(session.subscription);
      match retrieved
      case Err(reason) => HandlerRun([lookup], Threw(ProviderLookupError(reason)))
      case Ok(subscription) =>
        match FirstPrice(subscription.items)
        case None => HandlerRun([lookup], Threw(MissingLineItem))
        case Some(plan) =>
          var args := MutationArgs(
            userId.value,
            session.customer,
            session.subscription,
            ProductField(plan.product),
            NameField(plan.product),
            subscription.status);
          HandlerRun([lookup, UpdateSubscription(args)], Rethrow(reply))
  }

  /** `handleSubscriptionChange`: the subscription comes with the event, so nothing is looked up. */
  function HandleSubscriptionChange(subscription: Subscription, reply: StoreReply): (run: HandlerRun)
    ensures !Truthy(MetadataUserId(subscription.metadata)) ==> run == HandlerRun([], Returned)
    ensures Truthy(MetadataUserId(subscription.metadata)) ==>
              |run.calls| == 1 && run.calls[0].UpdateSubscription? && run.completion == Rethrow(reply)
  {
    var userId := MetadataUserId(subscription.metadata);
    if !Truthy(userId) then
      HandlerRun([], Returned)
    else
      var plan := FirstPrice(subscription.items);
      var productId := OrElse(if plan.Some? then ProductField(plan.value.product) else None, "");
      var planName := OrElse(if plan.Some? then NameField(plan.value.product) else None, "Pro Plan");
      var args := MutationArgs(
        userId.value,
        subscription.customer,
        subscription.id,
        Some(productId),
        Some(planName),
        subscription.status);
      HandlerRun([UpdateSubscription(args)], Rethrow(reply))
  }

  /** The mutation requests among a handler's calls, in order. */
  function Mutations(calls: seq<Call>): (ms: seq<MutationArgs>)
    ensures |ms| <= |calls|
    ensures forall m :: m in ms <==> UpdateSubscription(m) in calls
  {
    if |calls| == 0 then []
    else
      (if calls[0].UpdateSubscription? then [calls[0].args] else []) + Mutations(calls[1..])
  }

  /**
   * The success path of the checkout handler: one lookup, then exactly one mutation with
   * the session's ids, the id and name of the first item's product as read through the
   * cast (no defaults: both undefined for an id string, no name for a deleted product),
   * and the retrieved status.
   */
  lemma CheckoutSuccessArgs(session: CheckoutSession, subscription: Subscription, reply: StoreReply)
    requires Truthy(session.clientReferenceId) && |subscription.items| > 0
    ensures var run := HandleCheckoutCompleted(session, Ok(subscription), reply);
            var product := subscription.items[0].price.product;
            |Mutations(run.calls)| == 1
            && var a := Mutations(run.calls)[0];
            a.userId == session.clientReferenceId.value
            && a.stripeCustomerId == session.customer
            && a.stripeSubscriptionId == session.subscription
            && a.subscriptionStatus == subscription.status
            && (product.ProductId? ==> a.stripeProductId == None && a.planName == None)
            && (product.Expanded? ==>
                  a.stripeProductId == Some(product.product.id) && a.planName == Some(product.product.name))
            && (product.Deleted? ==> a.stripeProductId == Some(product.id) && a.planName == None)
            && run.completion == Rethrow(reply)
  {
  }

  /**
   * The success path of the change handler: exactly one mutation with the metadata's
   * user id, the subscription's customer, id and status, and the first item's product
   * id and name, which fall back to "" and "Pro Plan" when missing or empty.
   */
  lemma ChangeSuccessArgs(subscription: Subscription, reply: StoreReply)
    requires Truthy(MetadataUserId(subscription.metadata))
    ensures var run := HandleSubscriptionChange(subscription, reply);
            var items := subscription.items;
            |Mutations(run.calls)| == 1
            && var a := Mutations(run.calls)[0];
            a.userId == subscription.metadata["userId"]
            && a.stripeCustomerId == subscription.customer
            && a.stripeSubscriptionId == subscription.id
            && a.subscriptionStatus == subscription.status
            && a.stripeProductId == Some(
                 if |items| > 0 && items[0].price.product.Expanded? && items[0].price.product.product.id != ""
                 then items[0].price.product.product.id
                 else if |items| > 0 && items[0].price.product.Deleted? && items[0].price.product.id != ""
                 then items[0].price.product.id
                 else "")
            && a.planName == Some(
                 if |items| > 0 && items[0].price.product.Expanded? && items[0].price.product.product.name != ""
                 then items[0].price.product.product.name
                 else "Pro Plan")
  {
  }

  /** A session without a truthy user id performs no lookup and no mutation, whatever the lookup would return. */
  lemma CheckoutWithoutUserIsIgnored(
    session: CheckoutSession, r1: Result<Subscription, string>, r2: Result<Subscription, string>,
    s1: StoreReply, s2: StoreReply)
    requires !Truthy(session.clientReferenceId)
    ensures HandleCheckoutCompleted(session, r1, s1) == HandleCheckoutCompleted(session, r2, s2)
    ensures Mutations(HandleCheckoutCompleted(session, r1, s1).calls) == []
  {
  }

  /** Only the first line item's product feeds the mutation: later items are never read. */
  lemma CheckoutReadsOnlyFirstItem(
    session: CheckoutSession, sub1: Subscription, sub2: Subscription, reply: StoreReply)
    requires |sub1.items| > 0 && |sub2.items| > 0 && sub1.items[0] == sub2.items[0]
    requires sub1.status == sub2.status
    ensures HandleCheckoutCompleted(session, Ok(sub1), reply) == HandleCheckoutCompleted(session, Ok(sub2), reply)
  {
  }

  lemma ChangeReadsOnlyFirstItem(sub1: Subscription, sub2: Subscription, reply: StoreReply)
    requires sub1.(items := []) == sub2.(items := [])
    requires |sub1.items| > 0 && |sub2.items| > 0 && sub1.items[0] == sub2.items[0]
    ensures HandleSubscriptionChange(sub1, reply) == HandleSubscriptionChange(sub2, reply)
  {
  }

  /**
   * The calls a change event issues, mutation arguments included, do not depend on the
   * store's answer, so a redelivered event requests the same write.
   */
  lemma ChangeCallsIndependentOfStore(subscription: Subscription, s1: StoreReply, s2: StoreReply)
    ensures HandleSubscriptionChange(subscription, s1).calls == HandleSubscriptionChange(subscription, s2).calls
  {
  }

  /**
   * The calls a checkout event issues, mutation arguments included, do not depend on the
   * store's answer, so a redelivered event requests the same lookup and the same write.
   */
  lemma CheckoutCallsIndependentOfStore(
    session: CheckoutSession, retrieved: Result<Subscription, string>, s1: StoreReply, s2: StoreReply)
    ensures HandleCheckoutCompleted(session, retrieved, s1).calls == HandleCheckoutCompleted(session, retrieved, s2).calls
  {
  }

  /** The flattened price shape returned by `getStripePrices`. */
  datatype PriceView = PriceView(
    id: string,
    productId: string,
    unitAmount: Option<int>,
    currency: string,
    interval: Option<string>,
    trialPeriodDays: Option<int>)

  /** The mapping applied to each price. */
  function ToPriceView(price: Price): (v: PriceView)
    ensures v.id == price.id && v.unitAmount == price.unitAmount && v.currency == price.currency
    ensures price.product.ProductId? ==> v.productId == price.product.id
    ensures price.product.Expanded? ==> v.productId == price.product.product.id
    ensures price.product.Deleted? ==> v.productId == price.product.id
    ensures price.recurring.None? ==> v.interval.None? && v.trialPeriodDays.None?
    ensures price.recurring.Some? ==>
              v.interval == Some(price.recurring.value.interval)
              && v.trialPeriodDays == price.recurring.value.trialPeriodDays
  {
    PriceView(
      price.id,
      match price.product
      case ProductId(id) => id
      case Expanded(product) => product.id
      case Deleted(id) => id,
      price.unitAmount,
      price.currency,
      if price.recurring.Some? then Some(price.recurring.value.interval) else None,
      if price.recurring.Some? then price.recurring.value.trialPeriodDays else None)
  }

  /** `prices.data.map(...)`: one view per price, in the same order. */
  function PriceViews(prices: seq<Price>): (vs: seq<PriceView>)
    ensures |vs| == |prices|
    ensures forall i :: 0 <= i < |prices| ==> vs[i] == ToPriceView(prices[i])
  {
    if |prices| == 0 then [] else [ToPriceView(prices[0])] + PriceViews(prices[1..])
  }

  /** `getStripePrices`, given the answer of the remote price listing; a provider error propagates. */
  function GetStripePrices(listed: Result<seq<Price>, string>): (r: Result<seq<PriceView>, string>)
    ensures listed.Err? ==> r == Err(listed.error)
    ensures listed.Ok? ==> r.Ok? && |r.value| == |listed.value|
    ensures listed.Ok? ==> forall i :: 0 <= i < |listed.value| ==> r.value[i] == ToPriceView(listed.value[i])
  {
    match listed
    case Err(e) => Err(e)
    case Ok(prices) => Ok(PriceViews(prices))
  }

  /** The example of a monthly price of 1200 in "usd". */
  lemma MonthlyPriceExample()
    ensures ToPriceView(Price("price_1", ProductId("prod_1"), Some(1200), "usd", Some(Recurring("month", None))))
            == PriceView("price_1", "prod_1", Some(1200), "usd", Some("month"), None)
  {
  }
}
