/** The two datastore tables the payment routes read and write, as values:
    `users` is a map from user id to row, `payments` a sequence of rows in
    table order. A column holding `null` (or never written) is `None`. */
module Store {
  import opened Common

  /** The columns of a `users` row that the payment and revenue routes use. */
  datatype UserRow = UserRow(
    unlockedFeatures: Option<map<string, bool>>,
    coins: Option<int>,
    purchaseType: Option<string>,
    bundlePurchased: Option<string>,
    paymentStatus: Option<string>,
    payuPaymentId: Option<string>,
    payuTxnId: Option<string>,
    razorpayPaymentId: Option<string>,
    razorpayOrderId: Option<string>,
    updatedAt: Option<int>,
    email: Option<string>,
    name: Option<string>)

  /** A row with every column null: what an upsert starts from when the id is
      new. */
  const EmptyUser := UserRow(None, None, None, None, None, None, None, None, None, None, None, None)

  /** A `payments` row; `amount` is in paise, times are milliseconds. */
  datatype PaymentRow = PaymentRow(
    id: string,
    payuTxnId: Option<string>,
    razorpayOrderId: Option<string>,
    userId: Option<string>,
    kind: Option<string>,
    bundleId: Option<string>,
    feature: Option<string>,
    coins: Option<int>,
    customerEmail: Option<string>,
    amount: Option<int>,
    currency: string,
    paymentStatus: Option<string>,
    createdAt: Option<int>,
    payuPaymentId: Option<string>,
    razorpayPaymentId: Option<string>,
    razorpaySignature: Option<string>,
    fulfilledAt: Option<int>)

  /** The whole store a handler sees. */
  datatype Db = Db(users: map<string, UserRow>, payments: seq<PaymentRow>)
}
