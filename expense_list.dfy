/** The logic of the expense list: the category name shown for an expense,
    the checks that decide whether an edited expense may be saved, the edit
    session the list keeps, and the actions it dispatches. The expense
    sequence and the budget are inputs; the category table is a
    parameter. */
module ExpenseList {
  import opened Types
  import JsString
  import GastoReducer

  /** The name shown when no category matches. */
  const SinCategoria: string := "Sin categoría"

  // ---------------------------------------------------------------------
  // Category lookup
  // ---------------------------------------------------------------------

  /** `i` is the first index of `categories` whose id is `categoryId`. */
  ghost predicate IsFirstMatch(categories: seq<Category>, categoryId: string, i: int)
  {
    0 <= i < |categories| && categories[i].id == categoryId
    && forall j :: 0 <= j < i ==> categories[j].id != categoryId
  }

  /** `Array.prototype.find` over the category table: the first entry whose
      id matches, or nothing. */
  function FindCategory(categories: seq<Category>, categoryId: string): (r: Option<Category>)
    ensures r.None? <==> forall i :: 0 <= i < |categories| ==> categories[i].id != categoryId
    ensures r.Some? ==> exists i :: IsFirstMatch(categories, categoryId, i) && categories[i] == r.value
  {
    if categories == [] then None
    else if categories[0].id == categoryId then
      assert IsFirstMatch(categories, categoryId, 0);
      Some(categories[0])
    else
      var r := FindCategory(categories[1..], categoryId);
      if r.Some? then
        FirstMatchShifts(categories, categoryId, r.value);
        r
      else
        assert forall i :: 1 <= i < |categories| ==> categories[i] == categories[1..][i - 1];
        r
  }

  /** A first match in the tail of a table whose head does not match is a
      first match of the whole table, one place further. */
  lemma FirstMatchShifts(categories: seq<Category>, categoryId: string, c: Category)
    requires categories != [] && categories[0].id != categoryId
    requires exists i :: IsFirstMatch(categories[1..], categoryId, i) && categories[1..][i] == c
    ensures exists i :: IsFirstMatch(categories, categoryId, i) && categories[i] == c
  {
    var i :| IsFirstMatch(categories[1..], categoryId, i) && categories[1..][i] == c;
    assert IsFirstMatch(categories, categoryId, i + 1);
  }

  /** The display name of a category id: the name of the first matching
      entry, unless there is none or its name is the empty string (which
      JavaScript's `||` treats as missing), and then "Sin categoría". */
  function GetCategoryName(categories: seq<Category>, categoryId: string): (name: string)
    ensures (forall i :: 0 <= i < |categories| ==> categories[i].id != categoryId) ==> name == SinCategoria
    ensures forall i :: IsFirstMatch(categories, categoryId, i) ==>
      name == if categories[i].name == "" then SinCategoria else categories[i].name
  {
    var found := FindCategory(categories, categoryId);
    if found.Some? && found.value.name != "" then found.value.name else SinCategoria
  }

  // ---------------------------------------------------------------------
  // The budget check
  // ---------------------------------------------------------------------

  /** `r` is `s` with some elements left out, the rest kept in order. */
  ghost predicate IsSubsequence<T>(r: seq<T>, s: seq<T>)
    decreases |s|
  {
    if r == [] then true
    else if s == [] then false
    else (r[0] == s[0] && IsSubsequence(r[1..], s[1..])) || IsSubsequence(r, s[1..])
  }

  /** The expenses whose id differs from `id`, in their order (the
      `filter`). */
  function WithoutId(expenses: seq<Expense>, id: string): (r: seq<Expense>)
    ensures |r| <= |expenses|
    ensures forall e :: e in r <==> e in expenses && e.id != id
    ensures forall e :: multiset(r)[e] == if e.id != id then multiset(expenses)[e] else 0
    ensures IsSubsequence(r, expenses)
  {
    if expenses == [] then []
    else
      assert expenses == [expenses[0]] + expenses[1..];
      if expenses[0].id != id then [expenses[0]] + WithoutId(expenses[1..], id)
      else WithoutId(expenses[1..], id)
  }

  /** The sum of the amounts (the `reduce` from 0). */
  function TotalAmount(expenses: seq<Expense>): real
  {
    if expenses == [] then 0.0 else expenses[0].amount + TotalAmount(expenses[1..])
  }

  /** The sum of the amounts of the expenses whose id is `id`. */
  function AmountWithId(expenses: seq<Expense>, id: string): real
  {
    if expenses == [] then 0.0
    else (if expenses[0].id == id then expenses[0].amount else 0.0) + AmountWithId(expenses[1..], id)
  }

  /** The total of the other expenses: all amounts but those of the
      expenses carrying the edited id. */
  function TotalSinEsteGasto(expenses: seq<Expense>, id: string): (r: real)
    ensures r + AmountWithId(expenses, id) == TotalAmount(expenses)
  {
    TotalSplitsById(expenses, id);
    TotalAmount(WithoutId(expenses, id))
  }

  /** The total without one id and the amount under that id make up the
      whole total. */
  lemma {:induction false} TotalSplitsById(expenses: seq<Expense>, id: string)
    ensures TotalAmount(WithoutId(expenses, id)) + AmountWithId(expenses, id) == TotalAmount(expenses)
    decreases |expenses|
  {
    if expenses != [] {
      TotalSplitsById(expenses[1..], id);
    }
  }

  /** No two expenses share an id. */
  ghost predicate UniqueIds(expenses: seq<Expense>)
  {
    forall i, j :: 0 <= i < j < |expenses| ==> expenses[i].id != expenses[j].id
  }

  /** When `id` is absent, nothing carries it. */
  lemma {:induction false} AmountWithAbsentId(expenses: seq<Expense>, id: string)
    requires forall i :: 0 <= i < |expenses| ==> expenses[i].id != id
    ensures AmountWithId(expenses, id) == 0.0
    decreases |expenses|
  {
    if expenses != [] {
      assert forall i :: 0 <= i < |expenses| - 1 ==> expenses[1..][i] == expenses[i + 1];
      AmountWithAbsentId(expenses[1..], id);
    }
  }

  /** When ids are unique, exactly one expense carries the id of
      `expenses[k]`. */
  lemma {:induction false} AmountWithUniqueId(expenses: seq<Expense>, k: nat)
    requires UniqueIds(expenses) && k < |expenses|
    ensures AmountWithId(expenses, expenses[k].id) == expenses[k].amount
    decreases |expenses|
  {
    var tail := expenses[1..];
    assert forall i :: 0 <= i < |tail| ==> tail[i] == expenses[i + 1];
    if k == 0 {
      AmountWithAbsentId(tail, expenses[0].id);
    } else {
      assert UniqueIds(tail);
      AmountWithUniqueId(tail, k - 1);
    }
  }

  /** With unique ids, the other expenses total the whole total minus the
      edited expense's own amount. */
  lemma TotalSinEsteGastoOfPresent(expenses: seq<Expense>, k: nat)
    requires UniqueIds(expenses) && k < |expenses|
    ensures TotalSinEsteGasto(expenses, expenses[k].id) == TotalAmount(expenses) - expenses[k].amount
  {
    TotalSplitsById(expenses, expenses[k].id);
    AmountWithUniqueId(expenses, k);
  }

  /** For an id no expense carries, the other expenses are all of them. */
  lemma TotalSinEsteGastoOfAbsent(expenses: seq<Expense>, id: string)
    requires forall i :: 0 <= i < |expenses| ==> expenses[i].id != id
    ensures TotalSinEsteGasto(expenses, id) == TotalAmount(expenses)
  {
    TotalSplitsById(expenses, id);
    AmountWithAbsentId(expenses, id);
  }

  // ---------------------------------------------------------------------
  // Validation of an edit
  // ---------------------------------------------------------------------

  /** Why an edit is refused; `ExceedsBudget` carries the amount still
      available to the edited expense. */
  datatype EditError =
    | BlankName
    | NonPositiveAmount
    | MissingCategory
    | ExceedsBudget(disponible: real)

  datatype Validation = Accepted | Rejected(error: EditError)

  /** The checks of a save, in order; the first that fails decides. The
      name must not be blank once trimmed, the amount must be positive, a
      category must be chosen, and the other expenses plus the new amount
      must not exceed the budget (reaching it exactly is allowed). */
  function ValidateEdit(expenses: seq<Expense>, gasto: real, id: string, draft: DraftExpense): (r: Validation)
    ensures r == Rejected(BlankName) <==> JsString.IsBlank(draft.expenseName)
    ensures r == Rejected(NonPositiveAmount) <==>
      !JsString.IsBlank(draft.expenseName) && draft.amount <= 0.0
    ensures r == Rejected(MissingCategory) <==>
      !JsString.IsBlank(draft.expenseName) && draft.amount > 0.0 && draft.categories == ""
    ensures (r.Rejected? && r.error.ExceedsBudget?) <==>
      !JsString.IsBlank(draft.expenseName) && draft.amount > 0.0 && draft.categories != ""
      && TotalSinEsteGasto(expenses, id) + draft.amount > gasto
    ensures r.Rejected? && r.error.ExceedsBudget? ==>
      r.error.disponible == gasto - TotalSinEsteGasto(expenses, id) && r.error.disponible < draft.amount
    ensures r == Accepted <==>
      !JsString.IsBlank(draft.expenseName) && draft.amount > 0.0 && draft.categories != ""
      && TotalSinEsteGasto(expenses, id) + draft.amount <= gasto
  {
    JsString.TrimEmptyIffBlank(draft.expenseName);
    if JsString.Trim(draft.expenseName) == "" then Rejected(BlankName)
    else if draft.amount <= 0.0 then Rejected(NonPositiveAmount)
    else if draft.categories == "" then Rejected(MissingCategory)
    else
      var totalSinEsteGasto := TotalSinEsteGasto(expenses, id);
      var nuevoTotal := totalSinEsteGasto + draft.amount;
      if nuevoTotal > gasto then Rejected(ExceedsBudget(gasto - totalSinEsteGasto))
      else Accepted
  }

  /** An accepted edit of an existing expense keeps the spent total, with
      the edited amount in place of the old one, within the budget. */
  lemma AcceptedEditFitsBudget(expenses: seq<Expense>, gasto: real, k: nat, draft: DraftExpense)
    requires UniqueIds(expenses) && k < |expenses|
    requires ValidateEdit(expenses, gasto, expenses[k].id, draft) == Accepted
    ensures TotalAmount(expenses) - expenses[k].amount + draft.amount <= gasto
  {
    TotalSinEsteGastoOfPresent(expenses, k);
  }

  /** Accepting an edit depends on the draft's amount only through a
      threshold: a smaller positive amount is accepted too. */
  lemma AcceptanceIsMonotone(expenses: seq<Expense>, gasto: real, id: string, draft: DraftExpense, amount: real)
    requires ValidateEdit(expenses, gasto, id, draft) == Accepted
    requires 0.0 < amount <= draft.amount
    ensures ValidateEdit(expenses, gasto, id, draft.(amount := amount)) == Accepted
  {
  }

  // ---------------------------------------------------------------------
  // Dispatched actions
  // ---------------------------------------------------------------------

  /** The actions the list dispatches. */
  datatype ListAction =
    | UpdateExpense(id: string, expense: DraftExpense)
    | RemoveExpense(id: string)
  {
    function Type(): string
    {
      match this
      case UpdateExpense(_, _) => "update-expense"
      case RemoveExpense(_) => "remove-expense"
    }
  }

  /** The reducer has no case for the list's actions: as far as its state
      goes, dispatching one of them changes nothing. */
  lemma ListActionsReachDefaultCase(s: GastoReducer.GastoState, a: ListAction)
    ensures a.Type() !in {GastoReducer.AgregarGastoType, GastoReducer.ShowModalType, GastoReducer.CloseModalType}
    ensures GastoReducer.Reduce(s, GastoReducer.Unknown(a.Type())) == s
  {
  }

  /** Deleting asks for confirmation first; only a confirmed delete
      dispatches, and it names the expense. */
  function HandleDelete(id: string, confirmed: bool): (d: Option<ListAction>)
    ensures d.Some? <==> confirmed
    ensures d.Some? ==> d.value.RemoveExpense? && d.value.id == id
  {
    if confirmed then Some(RemoveExpense(id)) else None
  }

  // ---------------------------------------------------------------------
  // The edit session
  // ---------------------------------------------------------------------

  /** What a save does: nothing without a draft, an alert naming the
      failed check, or a dispatch. */
  datatype SaveOutcome =
    | NoDraft
    | Alerted(error: EditError)
    | Dispatched(action: ListAction)

  /** The draft an edit starts from: every field but the id, with the date
      made a single date. A date that is not already one is converted by
      the host's `Date` constructor, whose result is `coerced`. */
  function DraftOf(expense: Expense, coerced: Date): (d: DraftExpense)
    ensures d.expenseName == expense.expenseName
    ensures d.amount == expense.amount
    ensures d.categories == expense.categories
    ensures d.date.OneDate?
    ensures expense.date.OneDate? ==> d.date == expense.date
    ensures !expense.date.OneDate? ==> d.date == OneDate(coerced)
    ensures expense.date.OneDate? ==> d == ToDraft(expense)
  {
    DraftExpense(expense.amount, expense.expenseName, expense.categories,
                 OneDate(if expense.date.OneDate? then expense.date.date else coerced))
  }

  /** Which expense is being edited and its draft. */
  class EditSession {
    var editingId: Option<string>
    var editedExpense: Option<DraftExpense>

    /** A session is open exactly when both fields are set. */
    ghost predicate Valid()
      reads this
    {
      editingId.Some? <==> editedExpense.Some?
    }

    /** Both fields start out empty. */
    constructor ()
      ensures editingId == None && editedExpense == None
      ensures Valid()
    {
      editingId := None;
      editedExpense := None;
    }

    /** Opens a session on `expense`. */
    method HandleEdit(expense: Expense, coerced: Date)
      modifies this
      ensures editingId == Some(expense.id)
      ensures editedExpense == Some(DraftOf(expense, coerced))
      ensures Valid()
    {
      editingId := Some(expense.id);
      editedExpense := Some(DraftOf(expense, coerced));
    }

    /** Closes the session. */
    method HandleCancelEdit()
      modifies this
      ensures editingId == None && editedExpense == None
      ensures Valid()
    {
      editingId := None;
      editedExpense := None;
    }

    /** The name field of the open draft changes. */
    method SetExpenseName(name: string)
      requires Valid() && editedExpense.Some?
      modifies this
      ensures Valid()
      ensures editedExpense == Some(old(editedExpense.value).(expenseName := name))
      ensures editingId == old(editingId)
    {
      editedExpense := Some(editedExpense.value.(expenseName := name));
    }

    /** The amount field of the open draft changes. */
    method SetAmount(amount: real)
      requires Valid() && editedExpense.Some?
      modifies this
      ensures Valid()
      ensures editedExpense == Some(old(editedExpense.value).(amount := amount))
      ensures editingId == old(editingId)
    {
      editedExpense := Some(editedExpense.value.(amount := amount));
    }

    /** The category field of the open draft changes. */
    method SetCategory(categoryId: string)
      requires Valid() && editedExpense.Some?
      modifies this
      ensures Valid()
      ensures editedExpense == Some(old(editedExpense.value).(categories := categoryId))
      ensures editingId == old(editingId)
    {
      editedExpense := Some(editedExpense.value.(categories := categoryId));
    }

    /** The date field of the open draft takes the picker's value. */
    method SetDate(value: DateValue)
      requires Valid() && editedExpense.Some?
      modifies this
      ensures Valid()
      ensures editedExpense == Some(old(editedExpense.value).(date := value))
      ensures editingId == old(editingId)
    {
      editedExpense := Some(editedExpense.value.(date := value));
    }

    /** Saves the draft as the expense `id`, against the current expenses
        and budget. Without a draft nothing happens; a failed check alerts
        and leaves the session as it was; otherwise the update is
        dispatched and the session closes. */
    method HandleSaveEdit(id: string, expenses: seq<Expense>, gasto: real) returns (outcome: SaveOutcome)
      modifies this
      ensures old(editedExpense).None? ==>
        outcome == NoDraft && editingId == old(editingId) && editedExpense == None
      ensures old(editedExpense).Some? ==>
        match ValidateEdit(expenses, gasto, id, old(editedExpense).value)
        case Rejected(e) =>
          outcome == Alerted(e) && editingId == old(editingId) && editedExpense == old(editedExpense)
        case Accepted =>
          outcome == Dispatched(UpdateExpense(id, old(editedExpense).value))
          && editingId == None && editedExpense == None
      ensures old(Valid()) ==> Valid()
    {
      if editedExpense.None? {
        return NoDraft;
      }
      var draft := editedExpense.value;
      var v := ValidateEdit(expenses, gasto, id, draft);
      if v.Rejected? {
        return Alerted(v.error);
      }
      outcome := Dispatched(UpdateExpense(id, draft));
      HandleCancelEdit();
    }
  }

  /** A session opened on an expense, saved within budget, dispatches an
      update of that expense with its own fields and closes. */
  method EditThenSave(expenses: seq<Expense>, k: nat, gasto: real, coerced: Date)
    returns (outcome: SaveOutcome, closed: bool)
    requires UniqueIds(expenses) && k < |expenses|
    requires !JsString.IsBlank(expenses[k].expenseName)
    requires expenses[k].amount > 0.0 && expenses[k].categories != ""
    requires TotalAmount(expenses) <= gasto
    ensures outcome == Dispatched(UpdateExpense(expenses[k].id, DraftOf(expenses[k], coerced)))
    ensures closed
  {
    var session := new EditSession();
    session.HandleEdit(expenses[k], coerced);
    TotalSinEsteGastoOfPresent(expenses, k);
    outcome := session.HandleSaveEdit(expenses[k].id, expenses, gasto);
    closed := session.editingId.None? && session.editedExpense.None?;
  }
}
