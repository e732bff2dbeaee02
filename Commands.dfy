/** The requests the application layer handles and the responses it returns. */
module Commands {
  import opened Primitives
  import opened Wrappers

  /** CreatePaymentCommand(MerchantId, Amount, Currency, Reference, WebhookUrl = null). */
  datatype CreatePaymentCommand = CreatePaymentCommand(
    merchantId: Guid,
    amount: Int32,
    currency: string,
    reference: string,
    webhookUrl: Option<string>)

  datatype CreatePaymentResponse = CreatePaymentResponse(
    paymentId: Guid,
    status: string,
    reference: string,
    createdAt: Timestamp)

  /** CompletePaymentCommand(Reference): the payment provider's callback. */
  datatype CompletePaymentCommand = CompletePaymentCommand(reference: string)

  datatype CompletePaymentResponse = CompletePaymentResponse(
    paymentId: Guid,
    status: string,
    completedAt: Timestamp)

  /** ReconciliationReportResponse; the balances are decimals holding sums of ints. */
  datatype ReconciliationReportResponse = ReconciliationReportResponse(
    totalPayments: int,
    pendingPayments: int,
    completedPayments: int,
    failedPayments: int,
    customerBalance: int,
    clearingBalance: int,
    merchantBalance: int,
    isBalanced: bool,
    generatedAt: Timestamp)
}
