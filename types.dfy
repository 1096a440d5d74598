/** The records shared by the budget tracker's components: an expense, the
    draft an expense form edits, the category reference entries and the
    date value a date picker produces. */
module Types {

  datatype Option<T> = None | Some(value: T)

  /** A calendar instant, as milliseconds since the epoch. */
  datatype Date = Date(millis: int)

  /** What a date picker yields: no date, one date, or a range whose ends
      may each be missing. */
  datatype DateValue =
    | NoDate
    | OneDate(date: Date)
    | DateRange(start: Option<Date>, end: Option<Date>)

  /** A recorded expense; its identifier is assigned on creation. */
  datatype Expense = Expense(
    id: string,
    amount: real,
    expenseName: string,
    categories: string,
    date: DateValue)

  /** An expense without its identifier, as a form edits it. */
  datatype DraftExpense = DraftExpense(
    amount: real,
    expenseName: string,
    categories: string,
    date: DateValue)

  /** An entry of the static category table. */
  datatype Category = Category(id: string, name: string, icon: string)

  /** Drops the identifier of an expense. */
  function ToDraft(e: Expense): DraftExpense
  {
    DraftExpense(e.amount, e.expenseName, e.categories, e.date)
  }
}
