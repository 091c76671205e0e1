/** The one stored entity: a row of the `expenses` table. */
module ExpenseModel {
  import opened Wrappers

  /** An expense record. `id` is the primary key (a random UUID string when the
      caller does not give one); `date` is the instant it was booked for, in
      milliseconds since the epoch; `amount` is a real number of rupees. */
  datatype ExpenseEntity = ExpenseEntity(
    id: string,
    title: string,
    amount: real,
    category: string,
    notes: Option<string>,
    receiptImageUri: Option<string>,
    date: int)

  function Amount(e: ExpenseEntity): real { e.amount }

  function Category(e: ExpenseEntity): string { e.category }
}
