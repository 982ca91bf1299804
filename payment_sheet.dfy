/**
 * The payment SDK as the screens see it: `initPaymentSheet` and `presentPaymentSheet` each resolve
 * with no error, with an error whose code is "Canceled" (the user closed the sheet), or with any
 * other error. The SDK itself is not part of this model; its results are inputs.
 */
module PaymentSheet {

  datatype SheetResult = Completed | Canceled(message: string) | Failed(message: string) {

    /** The result carries an `error` object. */
    predicate HasError() {
      !Completed?
    }
  }

  /** `paymentStatus` of the checkout screens: "idle", "processing", "success" or "error". */
  datatype Status = Idle | Processing | Success | Error

  /** The client secret a sheet is configured with. */
  datatype SheetSecret = PaymentIntent(secret: string) | SetupIntent(secret: string)
}
