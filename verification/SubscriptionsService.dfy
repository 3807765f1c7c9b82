/** The operations of subscriptions.service.ts on the stored tables: each reads a row, then updates the
    invoice and then the subscription. */
module SubscriptionsService {
  import opened Common
  import opened BillingTypes
  import opened ManagedRetryPolicy
  import opened BillingDb
  import opened ReportEffects

  class Subscriptions {
    const config: Config
    var invoices: map<Id, Invoice>
    var subscriptions: map<Id, Subscription>
    var nextInvoiceId: Id

    function Tables(): Db
      reads this
    {
      Db(invoices, subscriptions, nextInvoiceId)
    }

    constructor (config: Config, db: Db)
      ensures this.config == config && Tables() == db
    {
      this.config, invoices, subscriptions, nextInvoiceId := config, db.invoices, db.subscriptions, db.nextInvoiceId;
    }

    /** invoice.update; the unique columns may refuse it. */
    method UpdateInvoice(id: Id, row: Invoice) returns (outcome: Outcome)
      modifies this
      ensures (Tables(), outcome) == WithInvoice(old(Tables()), id, row)
    {
      if !InvoiceFits(Tables(), id, row) {
        return UniqueViolation;
      }
      invoices := invoices[id := row];
      outcome := Done;
    }

    /** subscription.update */
    method UpdateSubscription(id: Id, row: Subscription) returns (outcome: Outcome)
      modifies this
      ensures (Tables(), outcome) == WithSubscription(old(Tables()), id, row)
    {
      if !SubscriptionFits(Tables(), id, row) {
        return UniqueViolation;
      }
      subscriptions := subscriptions[id := row];
      outcome := Done;
    }

    method CreateInvoice(row: Invoice) returns (outcome: Outcome)
      modifies this
      ensures (Tables(), outcome) == WithNewInvoice(old(Tables()), row)
    {
      outcome := UpdateInvoice(nextInvoiceId, row);
      if outcome.Done? {
        nextInvoiceId := nextInvoiceId + 1;
      }
    }

    method MarkInvoicePaid(p: PaidParams) returns (outcome: Outcome)
      requires Valid(Tables())
      modifies this
      ensures (Tables(), outcome) == MarkPaid(old(Tables()), p)
      ensures Valid(Tables())
      ensures outcome.Done? ==>
                && p.invoiceId in old(invoices)
                && old(invoices)[p.invoiceId].subscriptionId in old(subscriptions)
                && PaymentShows(old(Tables()), Tables(), p)
    {
      MarkPaidIsValid(Tables(), p);
      PaymentTakesEffect(Tables(), p);
      if p.invoiceId !in invoices {
        return InvoiceNotFound;
      }
      var invoice := invoices[p.invoiceId];
      if invoice.status == PAID && invoice.externalInvoiceId.Some? && p.externalInvoiceId.Some?
         && invoice.externalInvoiceId != p.externalInvoiceId {
        return Ignored;
      }
      outcome := UpdateInvoice(p.invoiceId, PaidInvoice(invoice, p));
      if !outcome.Done? || invoice.kind == OVERAGE {
        return;
      }
      var subscription := subscriptions[invoice.subscriptionId];
      outcome := UpdateSubscription(invoice.subscriptionId, PaidSubscription(subscription, invoice, p));
    }

    method MarkInvoiceFailed(p: FailedParams, now: int) returns (outcome: Outcome)
      requires Valid(Tables())
      modifies this
      ensures (Tables(), outcome) == MarkFailed(old(Tables()), config, p, now)
      ensures Valid(Tables())
      ensures outcome.Done? ==>
                && p.invoiceId in old(invoices)
                && old(invoices)[p.invoiceId].subscriptionId in old(subscriptions)
                && FailureShows(old(Tables()), config, Tables(), p, now)
    {
      MarkFailedIsValid(Tables(), config, p, now);
      FailureTakesEffect(Tables(), config, p, now);
      if p.invoiceId !in invoices {
        return InvoiceNotFound;
      }
      var invoice := invoices[p.invoiceId];
      if invoice.status == PAID && invoice.externalInvoiceId.Some? && p.externalInvoiceId.Some?
         && invoice.externalInvoiceId != p.externalInvoiceId {
        return Ignored;
      }
      var subscription := subscriptions[invoice.subscriptionId];
      outcome := UpdateInvoice(p.invoiceId, FailedInvoice(config, invoice, subscription, p, now));
      if !outcome.Done? || invoice.kind == OVERAGE {
        return;
      }
      outcome := UpdateSubscription(invoice.subscriptionId, FailedSubscription(config, subscription, p, now));
    }

    /** resolveInvoiceForExternalSync */
    method ResolveInvoiceForExternalSync(p: SyncParams) returns (outcome: Outcome, invoiceId: Id)
      requires Valid(Tables())
      modifies this
      ensures (Tables(), outcome, invoiceId) == ResolveInvoice(old(Tables()), p)
      ensures Valid(Tables())
    {
      ResolvedIsValid(Tables(), p);
      var bound := InvoiceByExternalId(Tables(), p.externalInvoiceId);
      if bound.Some? {
        return Done, bound.value;
      }
      if MetadataNames(Tables(), p) {
        return Done, p.metadataInvoiceId.value;
      }
      if p.externalSubscriptionId.None? {
        return SubscriptionNotFound, 0;
      }
      var subscription := SubscriptionByExternalId(Tables(), p.externalSubscriptionId.value);
      if subscription.None? {
        return SubscriptionNotFound, 0;
      }
      invoiceId := nextInvoiceId;
      outcome := CreateInvoice(SyncedInvoice(subscription.value, p));
    }

    method SyncInvoiceFromExternal(p: SyncParams, now: int) returns (outcome: Outcome, invoiceId: Id)
      requires Valid(Tables())
      modifies this
      ensures (Tables(), outcome, invoiceId) == SyncInvoice(old(Tables()), config, p, now)
      ensures Valid(Tables())
      ensures outcome.Done? ==>
                var resolved := ResolveInvoice(old(Tables()), p).0;
                && invoiceId in resolved.invoices
                && resolved.invoices[invoiceId].subscriptionId in resolved.subscriptions
                && EventShows(resolved, config, Tables(), invoiceId, p, now)
    {
      SyncInvoiceIsValid(Tables(), config, p, now);
      EventTakesEffect(Tables(), config, p, now);
      outcome, invoiceId := ResolveInvoiceForExternalSync(p);
      if !outcome.Done? {
        return outcome, 0;
      }
      if p.status == DRAFT {
        outcome := UpdateInvoice(invoiceId, DraftedInvoice(invoices[invoiceId], p));
      } else if p.status == PAID {
        outcome := MarkInvoicePaid(SyncPaid(invoiceId, p));
      } else {
        outcome := MarkInvoiceFailed(SyncFailed(invoiceId, p), now);
      }
    }

    method RecordExternalCheckout(
      invoiceId: Id, provider: Provider, checkoutSessionId: Option<Id>, externalSubscriptionId: Option<Id>)
      returns (outcome: Outcome)
      requires Valid(Tables())
      modifies this
      ensures (Tables(), outcome)
          == RecordCheckout(old(Tables()), invoiceId, provider, checkoutSessionId, externalSubscriptionId)
      ensures Valid(Tables())
    {
      CheckoutIsValid(Tables(), invoiceId, provider, checkoutSessionId, externalSubscriptionId);
      if invoiceId !in invoices {
        return InvoiceNotFound;
      }
      var invoice := invoices[invoiceId];
      outcome := UpdateInvoice(invoiceId,
        invoice.(provider := provider,
            externalCheckoutSessionId := Coalesce(checkoutSessionId, invoice.externalCheckoutSessionId)));
      if outcome.Done? && externalSubscriptionId.Some? {
        var subscription := subscriptions[invoice.subscriptionId];
        outcome := UpdateSubscription(invoice.subscriptionId,
          subscription.(provider := provider, externalSubscriptionId := externalSubscriptionId));
      }
    }

    /** Stripe is asked for the period end only for a subscription it knows. */
    method CancelSubscription(subscriptionId: Id, reported: Option<int>) returns (outcome: Outcome)
      requires Valid(Tables())
      modifies this
      ensures var known := subscriptionId in old(subscriptions)
                           && old(subscriptions)[subscriptionId].provider == STRIPE
                           && old(subscriptions)[subscriptionId].externalSubscriptionId.Some?;
              (Tables(), outcome)
                  == CancelAtPeriodEnd(old(Tables()), subscriptionId, if known then Some(reported) else None)
      ensures Valid(Tables())
    {
      if subscriptionId !in subscriptions {
        return SubscriptionNotFound;
      }
      var subscription := subscriptions[subscriptionId];
      var currentPeriodEnd: Option<Option<int>> := None;
      if subscription.provider == STRIPE && subscription.externalSubscriptionId.Some? {
        currentPeriodEnd := Some(reported);
      }
      CancelAtPeriodEndIsValid(Tables(), subscriptionId, currentPeriodEnd);
      outcome := UpdateSubscription(subscriptionId,
        subscription.(cancelAtPeriodEnd := true,
            currentPeriodEnd := OrElse(currentPeriodEnd, subscription.currentPeriodEnd)));
    }

    method MarkSubscriptionCanceledByExternalId(externalSubscriptionId: Id) returns (outcome: Outcome)
      requires Valid(Tables())
      modifies this
      ensures (Tables(), outcome) == CancelByExternalId(old(Tables()), externalSubscriptionId)
      ensures Valid(Tables())
    {
      CancelByExternalIdIsValid(Tables(), externalSubscriptionId);
      var found := SubscriptionByExternalId(Tables(), externalSubscriptionId);
      if found.None? {
        return SubscriptionNotFound;
      }
      var subscription := subscriptions[found.value];
      outcome := UpdateSubscription(found.value,
        subscription.(status := CANCELED, gracePeriodEndsAt := None, cancelAtPeriodEnd := false));
    }

    method SyncSubscriptionFromExternal(e: SubscriptionEvent, now: int) returns (outcome: Outcome)
      requires Valid(Tables())
      modifies this
      ensures (Tables(), outcome) == SyncSubscription(old(Tables()), config, e, now)
      ensures Valid(Tables())
    {
      SyncSubscriptionIsValid(Tables(), config, e, now);
      var found := SubscriptionByExternalId(Tables(), e.externalSubscriptionId);
      if found.None? {
        return SubscriptionNotFound;
      }
      outcome := UpdateSubscription(found.value, SyncedSubscription(config, subscriptions[found.value], e, now));
    }
  }
}
