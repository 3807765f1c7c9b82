/** What charging an invoice at the payment provider can come to, and how it is reported to the tables. */
module PaymentProvider {
  import opened Common
  import opened BillingTypes
  import opened BillingDb

  type ChargeStatus = s: InvoiceStatus | s != DRAFT witness PAID

  /** What the payment provider answers; it may also throw. */
  datatype ChargeResult =
    | Answered(status: ChargeStatus, externalInvoiceId: Option<Id>, externalSubscriptionId: Option<Id>,
               attemptCount: Option<int>, nextPaymentAttemptAt: Option<int>)
    | Threw(error: string)

  function PaidReport(id: Id, r: ChargeResult): PaidParams
    requires r.Answered?
  {
    PaidParams(id, STRIPE, None, r.externalInvoiceId, r.externalSubscriptionId, r.attemptCount)
  }

  function FailedReport(id: Id, r: ChargeResult): FailedParams
    requires r.Answered?
  {
    FailedParams(id, STRIPE, None, r.externalInvoiceId, r.externalSubscriptionId,
                 Some(r.status), r.attemptCount, r.nextPaymentAttemptAt)
  }

  lemma PaidIsNotPastDue(db: Db, p: PaidParams)
    requires Valid(db) && p.invoiceId in db.invoices
    ensures p.invoiceId in MarkPaid(db, p).0.invoices
    ensures Succeeded(MarkPaid(db, p).1) ==> MarkPaid(db, p).0.invoices[p.invoiceId].status == PAID
  {
  }

  lemma VoidIsNotPastDue(db: Db, cfg: Config, p: FailedParams, now: int)
    requires Valid(db) && p.invoiceId in db.invoices && p.invoiceStatus.Some?
    ensures p.invoiceId in MarkFailed(db, cfg, p, now).0.invoices
    ensures Succeeded(MarkFailed(db, cfg, p, now).1) ==>
        MarkFailed(db, cfg, p, now).0.invoices[p.invoiceId].status in {PAID, p.invoiceStatus.value}
  {
  }
}
