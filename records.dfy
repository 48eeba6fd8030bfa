/** One row of the generated table (the dictionary built at app.py:44-53). */
module Records {

  datatype PaymentHistory = OnTime | Late | Missed

  datatype CustomerCategory = Residential | Commercial

  /** A numeric reading: a sampled value, or NaN once a nulling step hit it.
      The sampled floating-point value itself is not modelled. */
  datatype Reading = Missing | Present

  /** The 0/1 integers the source stores in its two tampering columns. */
  type Flag = b: int | 0 <= b <= 1

  datatype Row = Row(
    customerId: string,
    month: int,
    consumptionKwh: Reading,
    billedAmountNgn: Reading,
    paymentHistory: PaymentHistory,
    customerCategory: CustomerCategory,
    isTamperingMonth: Flag,
    isTamperingCustomer: Flag)
}
