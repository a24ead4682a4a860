/** Answers of the payment provider, as the typed errors of app/services/payments/exceptions.py. */
module Provider {
  /** `Crashed` stands for any exception that is not a `PaymentError`. */
  datatype Reply =
    | Granted
    | InvalidAccount
    | AccountNameMismatch
    | InsufficientFunds
    | KycRequired
    | AuthenticationError
    | ProviderError
    | Crashed

  predicate IsPaymentError(r: Reply) {
    !r.Granted? && !r.Crashed?
  }
}
