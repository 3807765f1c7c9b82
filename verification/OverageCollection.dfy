/** The overage collection worker (billing-overage-collection.service.ts) on the stored tables. */
module OverageCollection {
  import opened Common
  import opened BillingTypes
  import opened BillingDb
  import opened Settlement
  import opened StableSort
  import UsageIndex
  import UsageStore
  import opened SubscriptionsService
  import opened SettlementEffects

  ghost predicate ValidPlans(db: Db) {
    forall id :: id in db.subscriptions ==> ValidPlan(db.subscriptions[id].plan)
  }

  /** What a period is settled for, on the usage recorded so far. */
  function SettlementOf(db: Db, records: seq<UsageIndex.UsageRecord>, id: Id): Settled
    requires Valid(db) && ValidPlans(db) && id in db.invoices
  {
    var row := db.invoices[id];
    BuildSettlement(db.subscriptions[row.subscriptionId].plan,
                    UsageIndex.ScanSum(records, row.subscriptionId, row.periodStart, row.periodEnd))
  }

  predicate Settles(db: Db, id: Id) { id in db.invoices && IsSettleable(db.invoices[id]) }

  /** materializeSourceInvoice on the tables: an invoice that is not settleable is left alone. */
  function MaterializedIfDue(db: Db, records: seq<UsageIndex.UsageRecord>, id: Id, processedAt: int): (Db, bool)
    requires Valid(db) && ValidPlans(db)
  {
    if !Settles(db, id) then (db, false)
    else
      (Materialized(db, id, SettlementOf(db, records, id), AddPlanPeriod(db.invoices[id].periodEnd), processedAt), true)
  }

  lemma AddedIsValid(db: Db, row: Invoice)
    requires Valid(db) && Refers(db, row) && InvoiceFits(db, db.nextInvoiceId, row)
    ensures Valid(Added(db, row))
  {
    var after := Added(db, row);
    forall i | i in after.invoices
      ensures InvoiceFits(after, i, after.invoices[i])
    {
      if i != db.nextInvoiceId {
        assert InvoiceFits(db, i, db.invoices[i]);
      }
    }
  }

  lemma SameKeysUpdateIsValid(db: Db, id: Id, row: Invoice)
    requires Valid(db) && id in db.invoices
    requires row.subscriptionId == db.invoices[id].subscriptionId
    requires row.externalInvoiceId == db.invoices[id].externalInvoiceId
    requires row.externalCheckoutSessionId == db.invoices[id].externalCheckoutSessionId
    requires row.overageSourceInvoiceId == db.invoices[id].overageSourceInvoiceId
    ensures Valid(db.(invoices := db.invoices[id := row]))
  {
    assert InvoiceFits(db, id, db.invoices[id]);
    InvoiceUpdateIsValid(db, id, row);
    assert InvoiceFits(db, id, row);
  }

  lemma SameExternalIdUpdateIsValid(db: Db, id: Id, row: Subscription)
    requires Valid(db) && id in db.subscriptions
    requires row.externalSubscriptionId == db.subscriptions[id].externalSubscriptionId
    ensures Valid(db.(subscriptions := db.subscriptions[id := row]))
  {
    assert SubscriptionFits(db, id, db.subscriptions[id]);
    SubscriptionUpdateIsValid(db, id, row);
    assert SubscriptionFits(db, id, row);
  }

  lemma ChargedIsValid(db: Db, id: Id, row: Invoice, settled: Settled)
    requires Valid(db) && row.subscriptionId in db.subscriptions && id in db.invoices
    ensures Valid(Charged(db, id, row, settled))
  {
    if settled.amountCents > 0 && !HasOverageInvoice(db, id) {
      AddedIsValid(db, OverageInvoice(id, row, settled));
    }
  }

  lemma RenewedIsValid(db: Db, row: Invoice, nextEnd: int)
    requires Valid(db) && row.subscriptionId in db.subscriptions
    ensures Valid(Renewed(db, row, nextEnd))
  {
    var s := row.subscriptionId;
    var sub := db.subscriptions[s];
    if IsLocallyManaged(sub) {
      if sub.cancelAtPeriodEnd {
        SameExternalIdUpdateIsValid(db, s, CanceledSubscription(sub));
      } else if sub.status != CANCELED {
        AddedIsValid(db, NextInvoice(row, sub.plan, nextEnd));
        SameExternalIdUpdateIsValid(Added(db, NextInvoice(row, sub.plan, nextEnd)), s,
                                    RenewedSubscription(sub, row.periodEnd, nextEnd));
      }
    }
  }

  /** Neither charging nor renewing touches an invoice that was there before. */
  lemma OldInvoicesStay(db: Db, id: Id, row: Invoice, settled: Settled, nextEnd: int, k: Id)
    requires Valid(db) && row.subscriptionId in db.subscriptions && k in db.invoices
    ensures var renewed := Renewed(Charged(db, id, row, settled), row, nextEnd);
            k in renewed.invoices && renewed.invoices[k] == db.invoices[k]
  {
    assert k < db.nextInvoiceId;
  }

  /** Settling keeps the unique columns unique and the plans valid. */
  lemma MaterializedIsValid(db: Db, id: Id, settled: Settled, nextEnd: int, processedAt: int)
    requires Valid(db) && ValidPlans(db) && id in db.invoices
    ensures Valid(Materialized(db, id, settled, nextEnd, processedAt))
    ensures ValidPlans(Materialized(db, id, settled, nextEnd, processedAt))
  {
    var row := db.invoices[id];
    var charged := Charged(db, id, row, settled);
    ChargedIsValid(db, id, row, settled);
    RenewedIsValid(charged, row, nextEnd);
    OldInvoicesStay(db, id, row, settled, nextEnd, id);
    SameKeysUpdateIsValid(Renewed(charged, row, nextEnd), id, row.(overageProcessedAt := Some(processedAt)));
  }

  lemma MaterializedIfDueIsValid(db: Db, records: seq<UsageIndex.UsageRecord>, id: Id, processedAt: int)
    requires Valid(db) && ValidPlans(db)
    ensures Valid(MaterializedIfDue(db, records, id, processedAt).0)
    ensures ValidPlans(MaterializedIfDue(db, records, id, processedAt).0)
  {
    if Settles(db, id) {
      MaterializedIsValid(db, id, SettlementOf(db, records, id), AddPlanPeriod(db.invoices[id].periodEnd), processedAt);
    }
  }

  /** Charging leaves an overage invoice exactly when there was one or something is due, touches nothing that was there,
      and charging again adds nothing. */
  lemma ChargingTwiceIsOnce(db: Db, id: Id, row: Invoice, settled: Settled)
    requires Valid(db)
    ensures var after := Charged(db, id, row, settled);
            && (HasOverageInvoice(after, id) <==> HasOverageInvoice(db, id) || settled.amountCents > 0)
            && Charged(after, id, row, settled) == after
            && after.subscriptions == db.subscriptions
            && (forall k :: k in db.invoices ==> k in after.invoices && after.invoices[k] == db.invoices[k])
            && |after.invoices| <= |db.invoices| + 1
            && (forall k :: k in after.invoices && k !in db.invoices ==>
                  && after.invoices[k].overageSourceInvoiceId == Some(id) && after.invoices[k].status == DRAFT
                  && after.invoices[k].amountCents == settled.amountCents > 0)
  {
    if settled.amountCents > 0 && !HasOverageInvoice(db, id) {
      assert Charged(db, id, row, settled).invoices[db.nextInvoiceId].overageSourceInvoiceId == Some(id);
    } else if HasOverageInvoice(db, id) {
      assert Charged(db, id, row, settled) == db;
    }
  }

  /** A period is settled exactly when it was paid for at Stripe and has not been settled before, and then for the
      usage recorded in it. */
  ghost predicate IsSettledAsUsed(
    db: Db, records: seq<UsageIndex.UsageRecord>, after: Db, id: Id, processedAt: int, processed: bool)
  {
    && (processed <==> IsPaidPeriod(db, id))
    && (!processed ==> after == db)
    && (processed ==>
          var row := db.invoices[id];
          && row.subscriptionId in db.subscriptions
          && SettlementShows(db, after, id,
               UsageIndex.ScanSum(records, row.subscriptionId, row.periodStart, row.periodEnd), processedAt))
  }

  lemma SettledAsUsed(db: Db, records: seq<UsageIndex.UsageRecord>, id: Id, processedAt: int)
    requires Valid(db) && ValidPlans(db)
    ensures var (after, processed) := MaterializedIfDue(db, records, id, processedAt);
            IsSettledAsUsed(db, records, after, id, processedAt, processed)
  {
    if IsPaidPeriod(db, id) {
      var row := db.invoices[id];
      assert Refers(db, row);
      SettlementTakesEffect(db, id,
          UsageIndex.ScanSum(records, row.subscriptionId, row.periodStart, row.periodEnd), processedAt);
    }
  }

  class BillingOverageCollection {
    const tables: Subscriptions
    const store: UsageStore.UsageStore

    constructor (tables: Subscriptions, store: UsageStore.UsageStore)
      ensures this.tables == tables && this.store == store
    {
      this.tables, this.store := tables, store;
    }

    ghost predicate Ready()
      reads tables, store
    {
      Valid(tables.Tables()) && ValidPlans(tables.Tables()) && UsageIndex.Valid(store.Db())
    }

    method ChargeOverage(id: Id, invoice: Invoice, settlement: Settled)
      requires Valid(tables.Tables()) && id in tables.invoices && invoice.subscriptionId in tables.subscriptions
      modifies tables
      ensures Valid(tables.Tables())
      ensures tables.Tables() == Charged(old(tables.Tables()), id, invoice, settlement)
    {
      ChargedIsValid(tables.Tables(), id, invoice, settlement);
      if settlement.amountCents > 0 && !HasOverageInvoice(tables.Tables(), id) {
        tables.invoices := tables.invoices[tables.nextInvoiceId := OverageInvoice(id, invoice, settlement)];
        tables.nextInvoiceId := tables.nextInvoiceId + 1;
      }
    }

    method EndOrRenew(invoice: Invoice)
      requires Valid(tables.Tables()) && invoice.subscriptionId in tables.subscriptions
      modifies tables
      ensures Valid(tables.Tables())
      ensures tables.Tables() == Renewed(old(tables.Tables()), invoice, AddPlanPeriod(invoice.periodEnd))
    {
      RenewedIsValid(tables.Tables(), invoice, AddPlanPeriod(invoice.periodEnd));
      var s := invoice.subscriptionId;
      var subscription := tables.subscriptions[s];
      if IsLocallyManaged(subscription) {
        if subscription.cancelAtPeriodEnd {
          tables.subscriptions := tables.subscriptions[s := CanceledSubscription(subscription)];
        } else if subscription.status != CANCELED {
          var nextPeriodStart := invoice.periodEnd;
          var nextPeriodEnd := AddPlanPeriod(nextPeriodStart);
          tables.invoices :=
              tables.invoices[tables.nextInvoiceId := NextInvoice(invoice, subscription.plan, nextPeriodEnd)];
          tables.nextInvoiceId := tables.nextInvoiceId + 1;
          tables.subscriptions :=
              tables.subscriptions[s := RenewedSubscription(subscription, nextPeriodStart, nextPeriodEnd)];
        }
      }
    }

    /** One transaction: charge the period's overage, end the subscription or open its next period, mark
        the invoice settled. */
    method MaterializeSourceInvoice(id: Id, processedAt: int) returns (processed: bool)
      requires Ready()
      modifies tables
      ensures Ready()
      ensures (tables.Tables(), processed) == MaterializedIfDue(old(tables.Tables()), store.records, id, processedAt)
      ensures IsSettledAsUsed(old(tables.Tables()), store.records, tables.Tables(), id, processedAt, processed)
    {
      SettledAsUsed(tables.Tables(), store.records, id, processedAt);
      if id !in tables.invoices || !IsSettleable(tables.invoices[id]) {
        return false;
      }
      var invoice := tables.invoices[id];
      var plan := tables.subscriptions[invoice.subscriptionId].plan;
      var usedRequests := store.SumUsageForWindow(invoice.subscriptionId, invoice.periodStart, invoice.periodEnd);
      var settlement := BuildSettlement(plan, usedRequests);
      MaterializedIsValid(tables.Tables(), id, settlement, AddPlanPeriod(invoice.periodEnd), processedAt);
      ChargeOverage(id, invoice, settlement);
      EndOrRenew(invoice);
      tables.invoices := tables.invoices[id := invoice.(overageProcessedAt := Some(processedAt))];
      processed := true;
    }
  }
}
