/** The add-expense screen's view-model: the form state, its input filters and
    validation, the duplicate flag, and the record a submit inserts. */
module AddExpense {
  import opened Wrappers
  import opened Text
  import opened ExpenseModel
  import opened Db
  import opened Repository

  /** The form; `receiptUri` is the picked image's URI as text. */
  datatype ExpenseUiState = ExpenseUiState(
    title: string,
    amount: string,
    category: string,
    notes: string,
    receiptUri: Option<string>,
    isDuplicate: bool)

  /** The form a new screen starts with. */
  const InitialExpenseUiState := ExpenseUiState("", "", "Staff", "", None, false)

  /** Notes longer than this many UTF-16 code units are refused. */
  const MaxNotesLength := 100

  /** Notes made only of characters above U+FFFF, such as emoji, are accepted
      up to 50 characters, since each counts as two units. */
  lemma AstralNotesLimit(v: string)
    requires forall i :: 0 <= i < |v| ==> v[i] as int > 0xFFFF
    ensures Utf16Length(v) <= MaxNotesLength <==> |v| <= 50
  {
    Utf16LengthAstral(v);
  }

  /** Notes with no character above U+FFFF are accepted up to 100 characters. */
  lemma BmpNotesLimit(v: string)
    requires forall i :: 0 <= i < |v| ==> v[i] as int <= 0xFFFF
    ensures Utf16Length(v) <= MaxNotesLength <==> |v| <= MaxNotesLength
  {
    Utf16LengthBmp(v);
  }

  datatype UiEvent = ShowToast(message: string) | ExpenseSaved

  datatype ExpenseAction =
    | TitleChanged(value: string)
    | AmountChanged(value: string)
    | CategoryChanged(value: string)
    | NotesChanged(value: string)
    | ReceiptPicked(uri: string)
    | Submit

  /** What the amount field admits: digits and points only. */
  predicate AmountChars(s: string) {
    forall i :: 0 <= i < |s| ==> IsDigit(s[i]) || s[i] == '.'
  }

  /** `validate(state)`: the message that blocks a submit, or none. */
  function Validate(s: ExpenseUiState): Option<string> {
    if IsBlank(s.title) || IsBlank(s.amount) then Some("Title and Amount are required")
    else if s.isDuplicate then Some("Duplicate entry found")
    else None
  }

  /** The enabling condition of the screen's save button. */
  predicate SaveEnabled(s: ExpenseUiState) {
    !s.isDuplicate && !IsBlank(s.title) && !IsBlank(s.amount)
  }

  /** `validate` lets a submit through exactly when the save button is enabled;
      a missing title or amount is reported before a duplicate. */
  lemma ValidateMatchesSaveButton(s: ExpenseUiState)
    ensures Validate(s).None? <==> SaveEnabled(s)
    ensures (IsBlank(s.title) || IsBlank(s.amount)) <==> Validate(s) == Some("Title and Amount are required")
    ensures Validate(s) == Some("Duplicate entry found") <==> s.isDuplicate && !IsBlank(s.title) && !IsBlank(s.amount)
  {
  }

  /** The record `submitExpense` inserts for form `s`, key `id` and instant
      `date`; none where `amount.toDouble()` throws. */
  function NewRecord(s: ExpenseUiState, id: string, date: int): (r: Option<ExpenseEntity>)
    ensures r.Some? <==> IsDecimal(s.amount)
    ensures r.Some? ==> r.value.id == id && r.value.date == date && r.value.category == s.category
                        && r.value.receiptImageUri == s.receiptUri
    ensures r.Some? ==> r.value.amount >= 0.0 && Some(r.value.amount) == ParseAmount(s.amount)
    ensures r.Some? ==> (r.value.notes.None? <==> IsBlank(s.notes))
    ensures r.Some? ==> (r.value.notes.Some? ==> r.value.notes.value == s.notes)
    ensures r.Some? ==> r.value.title == Trim(s.title)
    ensures r.Some? ==> |r.value.title| <= |s.title| && (r.value.title == [] <==> IsBlank(s.title))
    ensures r.Some? && r.value.title != [] ==>
              !IsWhitespace(r.value.title[0]) && !IsWhitespace(r.value.title[|r.value.title| - 1])
  {
    match ParseAmount(s.amount)
    case None => None
    case Some(amount) =>
      Some(ExpenseEntity(id, Trim(s.title), amount, s.category,
                         if IsBlank(s.notes) then None else Some(s.notes), s.receiptUri, date))
  }

  /** The amount filter admits a lone point, which passes validation but does
      not parse: such a submit inserts nothing and shows nothing. */
  lemma LonePointPassesValidation(id: string, date: int)
    ensures var s := ExpenseUiState("Tea", ".", "Staff", "", None, false);
            && AmountChars(s.amount) && Validate(s).None? && NewRecord(s, id, date).None?
  {
    var s := ExpenseUiState("Tea", ".", "Staff", "", None, false);
    assert !IsBlank(s.title) by { assert !IsWhitespace(s.title[0]); }
    assert !IsBlank(s.amount) by { assert !IsWhitespace(s.amount[0]); }
    assert !IsDecimal(s.amount) by {
      assert |s.amount| == 1 && !IsDigit(s.amount[0]);
    }
  }

  /** A submit that passed validation: the form and the booking instant its
      insert coroutine captured. */
  datatype PendingSubmit = PendingSubmit(form: ExpenseUiState, date: int)

  /** What happened to a submit that passed validation. */
  datatype SubmitOutcome =
    | Saved(record: ExpenseEntity)
    | KeyConflict(record: ExpenseEntity)   // the insert aborted
    | Unparsable                           // `toDouble()` threw

  class ExpenseViewModel {
    var uiState: ExpenseUiState
    /** The instant new records are booked for, in epoch milliseconds. */
    var currentDate: int
    /** The events sent so far, oldest first. */
    var events: seq<UiEvent>
    /** The booking instant the duplicate query was subscribed with: the
        value of `currentDate` when the title or the category last changed. */
    var watchedDate: int

    /** The input filters hold of the form. */
    ghost predicate Valid()
      reads this
    {
      AmountChars(uiState.amount) && Utf16Length(uiState.notes) <= MaxNotesLength
    }

    /** A new screen, booking for instant `now`. */
    constructor(now: int)
      ensures Valid()
      ensures uiState == InitialExpenseUiState && currentDate == now && events == [] && watchedDate == now
    {
      uiState := InitialExpenseUiState;
      currentDate := now;
      events := [];
      watchedDate := now;
    }

    /** `setDate(date)`. */
    method SetDate(date: int)
      modifies this
      ensures currentDate == date && uiState == old(uiState) && events == old(events)
      ensures watchedDate == old(watchedDate)
    {
      currentDate := date;
    }

    /** An emission of `observeDuplicates()`, after a change of title or
        category or of the table: a blank title is never a duplicate; otherwise
        a record booked at exactly `watchedDate` with the same title and
        category, ignoring ASCII case, makes it one. */
    method RefreshDuplicate(dao: ExpenseDao)
      requires Valid()
      modifies this
      ensures Valid()
      ensures uiState == old(uiState).(isDuplicate := uiState.isDuplicate)
      ensures uiState.isDuplicate <==>
                !IsBlank(uiState.title) &&
                exists i :: 0 <= i < |dao.rows| && dao.rows[i].date == watchedDate
                            && Lower(dao.rows[i].title) == Lower(uiState.title)
                            && Lower(dao.rows[i].category) == Lower(uiState.category)
      ensures currentDate == old(currentDate) && events == old(events) && watchedDate == old(watchedDate)
    {
      var duplicate := if !IsBlank(uiState.title) then CheckDuplicate(dao, watchedDate, uiState.title, uiState.category) else false;
      uiState := uiState.(isDuplicate := duplicate);
    }

    /** `onAction(action)`. The field actions change their own field only, the
        amount only to text of digits and points, the notes only to at most
        100 UTF-16 code units; a title or category that really changes re-subscribes
        the duplicate query at the current booking instant. `Submit` runs
        `validate`: a failure sends one toast; a success returns the form and
        the booking instant the insert coroutine captures. */
    method OnAction(action: ExpenseAction) returns (launched: Option<PendingSubmit>)
      requires Valid()
      modifies this
      ensures Valid()
      ensures currentDate == old(currentDate)
      ensures !action.Submit? ==> launched == None && events == old(events)
      ensures action.TitleChanged? ==> uiState == old(uiState).(title := action.value)
      ensures action.AmountChanged? && AmountChars(action.value) ==> uiState == old(uiState).(amount := action.value)
      ensures action.AmountChanged? && !AmountChars(action.value) ==> uiState == old(uiState)
      ensures action.CategoryChanged? ==> uiState == old(uiState).(category := action.value)
      ensures action.NotesChanged? && Utf16Length(action.value) <= MaxNotesLength ==> uiState == old(uiState).(notes := action.value)
      ensures action.NotesChanged? && Utf16Length(action.value) > MaxNotesLength ==> uiState == old(uiState)
      ensures action.ReceiptPicked? ==> uiState == old(uiState).(receiptUri := Some(action.uri))
      ensures action.Submit? ==> uiState == old(uiState)
      ensures action.Submit? && Validate(old(uiState)).Some? ==>
                launched == None && events == old(events) + [ShowToast(Validate(old(uiState)).value)]
      ensures action.Submit? && Validate(old(uiState)).None? ==>
                launched == Some(PendingSubmit(old(uiState), currentDate)) && events == old(events)
      ensures watchedDate == if (action.TitleChanged? && action.value != old(uiState).title)
                                || (action.CategoryChanged? && action.value != old(uiState).category)
                             then currentDate else old(watchedDate)
    {
      launched := None;
      match action
      case TitleChanged(v) =>
        if v != uiState.title {
          watchedDate := currentDate;
        }
        uiState := uiState.(title := v);
      case AmountChanged(v) =>
        if AmountChars(v) {
          uiState := uiState.(amount := v);
        }
      case CategoryChanged(v) =>
        if v != uiState.category {
          watchedDate := currentDate;
        }
        uiState := uiState.(category := v);
      case NotesChanged(v) =>
        if Utf16Length(v) <= MaxNotesLength {
          uiState := uiState.(notes := v);
        }
      case ReceiptPicked(uri) => uiState := uiState.(receiptUri := Some(uri));
      case Submit =>
        var error := Validate(uiState);
        if error.Some? {
          events := events + [ShowToast(error.value)];
        } else {
          launched := Some(PendingSubmit(uiState, currentDate));
        }
    }

    /** The insert coroutine of `submitExpense` for the captured `job`, with
        `id` the new record's key: the record is inserted, then the success
        toast and `ExpenseSaved` are sent, in that order. When the insert
        aborts on the key or the amount does not parse, the coroutine dies
        with the exception: nothing is inserted and nothing sent. */
    method CompleteSubmit(job: PendingSubmit, dao: ExpenseDao, id: string) returns (outcome: SubmitOutcome)
      requires dao.Valid()
      modifies this, dao
      ensures dao.Valid()
      ensures uiState == old(uiState) && currentDate == old(currentDate) && watchedDate == old(watchedDate)
      ensures NewRecord(job.form, id, job.date).None? ==>
                outcome == Unparsable && dao.rows == old(dao.rows) && events == old(events)
      ensures NewRecord(job.form, id, job.date).Some? && old(dao.HasKey(id)) ==>
                outcome == KeyConflict(NewRecord(job.form, id, job.date).value)
                && dao.rows == old(dao.rows) && events == old(events)
      ensures NewRecord(job.form, id, job.date).Some? && !old(dao.HasKey(id)) ==>
                outcome == Saved(NewRecord(job.form, id, job.date).value)
                && dao.rows == old(dao.rows) + [NewRecord(job.form, id, job.date).value]
                && events == old(events) + [ShowToast("Expense added successfully"), ExpenseSaved]
    {
      var record := NewRecord(job.form, id, job.date);
      if record.None? {
        outcome := Unparsable;
        return;
      }
      var ok := dao.InsertExpense(record.value);
      if !ok {
        outcome := KeyConflict(record.value);
        return;
      }
      events := events + [ShowToast("Expense added successfully")];
      events := events + [ExpenseSaved];
      outcome := Saved(record.value);
    }
  }
}
