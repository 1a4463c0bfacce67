/*
 * E-commerce: query the store's offers, check out a basket, query the
 * user's entitlements and receipts, and read back what the backend cached.
 * Each part needs its own interface: the store, purchasing or entitlements.
 */
module Ecommerce {
  import opened Wrappers
  import opened ResultSinks
  import opened Calls
  import opened Online
  import opened Lists

  const StoreUnsupported: string := "Online subsystem does not support e-commerce store."
  const PurchaseUnsupported: string := "Online subsystem does not support e-commerce purchasing."
  const EntitlementsUnsupported: string := "Online subsystem does not support e-commerce entitlements."
  const EntitlementsStartFailed: string := "QueryEntitlements call failed to start."

  /** The three interfaces, each with its own message. */
  datatype Part = StorePart | PurchasePart | EntitlementsPart

  function PartNeed(p: Part): (n: Need)
    ensures n.unsupported == (match p
                              case StorePart => StoreUnsupported
                              case PurchasePart => PurchaseUnsupported
                              case EntitlementsPart => EntitlementsUnsupported)
  {
    match p
    case StorePart => Need(Store, StoreUnsupported)
    case PurchasePart => Need(Purchase, PurchaseUnsupported)
    case EntitlementsPart => Need(Entitlements, EntitlementsUnsupported)
  }

  function PartGuard(env: Env, p: Part): (m: Option<string>)
    requires CanCall(env, Asserted)
    ensures m.None? <==> env.Some? && PartNeed(p).cap in env.value.caps
    ensures env.Some? && PartNeed(p).cap !in env.value.caps ==> m == Some(PartNeed(p).unsupported)
  {
    Guard(env, Asserted, [PartNeed(p)])
  }

  /** The three messages are distinct, so a refusal names the missing part. */
  lemma PartMessagesDistinct(p: Part, q: Part)
    ensures PartNeed(p).unsupported == PartNeed(q).unsupported ==> p == q
    ensures PartNeed(p).unsupported != NotAvailable
  {
  }

  // ---------------------------------------------------------------------
  // Offers

  /** The offers query: a per-call delegate whose start is not checked. */
  function QueryOffersLaunch(env: Env): (l: Launch<()>)
    requires CanCall(env, Asserted)
    ensures l.Refuse? <==> PartGuard(env, StorePart).Some?
    ensures l.Refuse? ==> l.args == Args(false, (), PartGuard(env, StorePart).value)
    ensures l.Bind? ==> l.onStartFailure.None?
  {
    GuardedLaunch(PartGuard(env, StorePart), (), None)
  }

  /** A backend offer and the entry the getter makes of it. */
  datatype StoreOffer = StoreOffer(offerId: string, title: string, displayPrice: string)
  datatype Offer = Offer(id: string, title: string, currentPrice: string)

  /** The cached offers, one entry per backend offer in order; empty when
      the subsystem or store is missing. */
  method GetCachedOffers(env: Env, offers: seq<StoreOffer>) returns (out: seq<Offer>)
    requires CanCall(env, Asserted)
    ensures PartGuard(env, StorePart).Some? ==> out == []
    ensures PartGuard(env, StorePart).None? ==> |out| == |offers|
    ensures PartGuard(env, StorePart).None? ==>
              forall i :: 0 <= i < |offers| ==> out[i] == Offer(offers[i].offerId, offers[i].title, offers[i].displayPrice)
  {
    if PartGuard(env, StorePart).Some? {
      return [];
    }
    out := MapEach(offers, (o: StoreOffer) => Offer(o.offerId, o.title, o.displayPrice));
  }

  // ---------------------------------------------------------------------
  // Checkout

  /** One line of a checkout request: namespace, offer and quantity. */
  datatype CheckoutOffer = CheckoutOffer(offerNamespace: string, offerId: string, quantity: int)

  /** The checkout request for a basket of offer ids and quantities: one
      line per entry of the basket, in the map's iteration order, with the
      empty namespace. */
  method CheckoutRequest(basket: map<string, int>) returns (request: seq<CheckoutOffer>)
    ensures |request| == |basket|
    ensures forall i :: 0 <= i < |request| ==>
              request[i].offerNamespace == "" && request[i].offerId in basket &&
              request[i].quantity == basket[request[i].offerId]
    ensures forall id :: id in basket ==> exists i :: 0 <= i < |request| && request[i].offerId == id
    ensures forall i, j :: 0 <= i < j < |request| ==> request[i].offerId != request[j].offerId
  {
    request := [];
    var left := basket.Keys;
    while left != {}
      invariant left <= basket.Keys
      invariant |request| + |left| == |basket|
      invariant forall i :: 0 <= i < |request| ==>
                  request[i].offerNamespace == "" && request[i].offerId in basket &&
                  request[i].offerId !in left && request[i].quantity == basket[request[i].offerId]
      invariant forall id :: id in basket && id !in left ==> exists i :: 0 <= i < |request| && request[i].offerId == id
      invariant forall i, j :: 0 <= i < j < |request| ==> request[i].offerId != request[j].offerId
      decreases |left|
    {
      var id :| id in left;
      ghost var before := request;
      request := request + [CheckoutOffer("", id, basket[id])];
      assert request[|before|].offerId == id;
      assert forall i :: 0 <= i < |before| ==> request[i] == before[i];
      left := left - {id};
    }
  }

  /** Checkout and the receipt query both need the purchase interface and
      do not look at the start call's result. */
  function PurchaseLaunch(env: Env): (l: Launch<()>)
    requires CanCall(env, Asserted)
    ensures l.Refuse? <==> PartGuard(env, PurchasePart).Some?
    ensures l.Refuse? ==> l.args == Args(false, (), PartGuard(env, PurchasePart).value)
    ensures l.Bind? ==> l.onStartFailure.None?
  {
    GuardedLaunch(PartGuard(env, PurchasePart), (), None)
  }

  // ---------------------------------------------------------------------
  // Entitlements

  /** The entitlements query: a failed start clears the handler before it
      delivers failure. */
  function QueryEntitlementsLaunch(env: Env): (l: Launch<()>)
    requires CanCall(env, Asserted)
    ensures l.Refuse? <==> PartGuard(env, EntitlementsPart).Some?
    ensures l.Refuse? ==> l.args == Args(false, (), PartGuard(env, EntitlementsPart).value)
    ensures l.Bind? ==> l.onStartFailure == Some(StartFailure(Args(false, (), EntitlementsStartFailed), ClearThenDeliver))
  {
    GuardedLaunch(PartGuard(env, EntitlementsPart), (),
                  Some(StartFailure(Args(false, (), EntitlementsStartFailed), ClearThenDeliver)))
  }

  /** A failed entitlements start leaves the handler cleared before the
      sink hears of it. */
  lemma EntitlementsStartFailureClearsFirst(env: Env)
    requires CanCall(env, Asserted) && PartGuard(env, EntitlementsPart).None?
    ensures LaunchSteps(QueryEntitlementsLaunch(env), false) ==
              [Bound, Cleared, Delivered(Args(false, (), EntitlementsStartFailed))]
  {
  }

  /** A backend entitlement and the entry the getter makes of it. */
  datatype BackendEntitlement = BackendEntitlement(id: string, name: string, status: string, remainingCount: int)
  datatype Entitlement = Entitlement(id: string, title: string, status: string, quantity: int)

  /** The cached entitlements, one per backend entitlement in order, with
      the remaining count as quantity. */
  method GetCachedEntitlements(env: Env, items: seq<BackendEntitlement>) returns (out: seq<Entitlement>)
    requires CanCall(env, Asserted)
    ensures PartGuard(env, EntitlementsPart).Some? ==> out == []
    ensures PartGuard(env, EntitlementsPart).None? ==> |out| == |items|
    ensures PartGuard(env, EntitlementsPart).None? ==>
              forall i :: 0 <= i < |items| ==>
                out[i] == Entitlement(items[i].id, items[i].name, items[i].status, items[i].remainingCount)
  {
    if PartGuard(env, EntitlementsPart).Some? {
      return [];
    }
    out := MapEach(items, (e: BackendEntitlement) => Entitlement(e.id, e.name, e.status, e.remainingCount));
  }

  // ---------------------------------------------------------------------
  // Receipts

  /** A receipt as the getter returns it: id and title are both the
      transaction id. */
  datatype Receipt = Receipt(id: string, title: string)

  method GetCachedReceipts(env: Env, transactionIds: seq<string>) returns (out: seq<Receipt>)
    requires CanCall(env, Asserted)
    ensures PartGuard(env, PurchasePart).Some? ==> out == []
    ensures PartGuard(env, PurchasePart).None? ==> |out| == |transactionIds|
    ensures PartGuard(env, PurchasePart).None? ==>
              forall i :: 0 <= i < |transactionIds| ==> out[i] == Receipt(transactionIds[i], transactionIds[i])
  {
    if PartGuard(env, PurchasePart).Some? {
      return [];
    }
    out := MapEach(transactionIds, (t: string) => Receipt(t, t));
  }
}
