/** The Add Transaction page: the entry form with its reset on submit, the filter over the
    transaction history, and the rules that pick what a history row shows. */
module AddTransaction {
  import opened Navigation

  datatype Kind = Expense | Income | Debt

  /** A history record. An absent optional field (`notes`, `person`, `dueDate`) is the
      empty string, which the page treats the same way as a missing one. `status` is
      "completed" for income and expense records and "paid" or "unpaid" for debts. */
  datatype Transaction = Transaction(
    id: int,
    kind: Kind,
    amount: int,
    category: string,
    date: string,
    notes: string,
    person: string,
    dueDate: string,
    status: string)

  // ---------------------------------------------------------------------------
  // History filter
  // ---------------------------------------------------------------------------

  /** The history tabs: all records, or the records of one kind. */
  datatype HistoryFilter = All | OnlyKind(kind: Kind)

  /** The filter callback: "all" keeps every record, any other tab keeps its kind. */
  predicate Keeps(f: HistoryFilter, t: Transaction)
  {
    f.All? || t.kind == f.kind
  }

  /** `filteredTransactions`: the records the current tab keeps, in their original order.
      A record is in the result exactly when it is in the input and the tab keeps it. */
  function Filtered(ts: seq<Transaction>, f: HistoryFilter): (r: seq<Transaction>)
    ensures |r| <= |ts|
    ensures forall t :: t in r <==> t in ts && Keeps(f, t)
    decreases |ts|
  {
    if ts == [] then []
    else if Keeps(f, ts[0]) then [ts[0]] + Filtered(ts[1..], f)
    else Filtered(ts[1..], f)
  }

  /** How many records of `ts` the tab keeps. */
  function CountKept(ts: seq<Transaction>, f: HistoryFilter): nat
    decreases |ts|
  {
    if ts == [] then 0 else (if Keeps(f, ts[0]) then 1 else 0) + CountKept(ts[1..], f)
  }

  /** The "all" tab shows the full list unchanged. */
  lemma {:induction false} FilteredAll(ts: seq<Transaction>)
    ensures Filtered(ts, All) == ts
    decreases |ts|
  {
    if ts != [] {
      FilteredAll(ts[1..]);
    }
  }

  /** The result holds exactly as many records as the tab keeps. */
  lemma {:induction false} FilteredLength(ts: seq<Transaction>, f: HistoryFilter)
    ensures |Filtered(ts, f)| == CountKept(ts, f)
    decreases |ts|
  {
    if ts != [] {
      FilteredLength(ts[1..], f);
    }
  }

  /** Filtering a concatenation filters each part and keeps the parts in order. */
  lemma {:induction false} FilteredAppend(a: seq<Transaction>, b: seq<Transaction>, f: HistoryFilter)
    ensures Filtered(a + b, f) == Filtered(a, f) + Filtered(b, f)
    decreases |a|
  {
    if a == [] {
      assert a + b == b;
    } else {
      assert (a + b)[1..] == a[1..] + b;
      FilteredAppend(a[1..], b, f);
    }
  }

  /** Every kept record `ts[i]` lands at the position given by the number of kept records
      before it; since that number grows with `i`, kept records keep their relative order.
      Together with `FilteredLength` this says the result is exactly the kept records, each
      once, in input order. */
  lemma {:induction false} FilteredPosition(ts: seq<Transaction>, f: HistoryFilter, i: int)
    requires 0 <= i < |ts| && Keeps(f, ts[i])
    ensures CountKept(ts[..i], f) < |Filtered(ts, f)|
    ensures Filtered(ts, f)[CountKept(ts[..i], f)] == ts[i]
    decreases |ts|
  {
    if i == 0 {
      assert ts[..0] == [];
    } else {
      assert ts[..i][1..] == ts[1..][..i - 1];
      FilteredPosition(ts[1..], f, i - 1);
    }
  }

  /** Of two kept records, the earlier one in the input comes earlier in the result. */
  lemma {:induction false} CountKeptGrows(ts: seq<Transaction>, f: HistoryFilter, i: int, j: int)
    requires 0 <= i < j <= |ts| && Keeps(f, ts[i])
    ensures CountKept(ts[..i], f) < CountKept(ts[..j], f)
    decreases |ts|
  {
    if i == 0 {
      assert ts[..j][1..] == ts[1..][..j - 1];
      assert ts[..j][0] == ts[0];
    } else {
      assert ts[..i][1..] == ts[1..][..i - 1];
      assert ts[..j][1..] == ts[1..][..j - 1];
      CountKeptGrows(ts[1..], f, i - 1, j - 1);
    }
  }

  // ---------------------------------------------------------------------------
  // How a history row is shown
  // ---------------------------------------------------------------------------

  /** The sign in front of the amount: minus for expenses, plus for income, none for debts. */
  function AmountPrefix(k: Kind): (p: string)
    ensures p == "-" <==> k == Expense
    ensures p == "+" <==> k == Income
    ensures p == "" <==> k == Debt
  {
    match k
    case Expense => "-"
    case Income => "+"
    case Debt => ""
  }

  /** The row heading: the other party for a debt, the category for anything else. */
  function RowTitle(t: Transaction): (title: string)
    ensures t.kind == Debt ==> title == t.person
    ensures t.kind != Debt ==> title == t.category
  {
    if t.kind == Debt then t.person else t.category
  }

  /** The line under the heading: the notes when there are any, else the category. */
  function RowSubtitle(t: Transaction): (line: string)
    ensures line == t.notes || line == t.category
    ensures t.notes != "" ==> line == t.notes
    ensures line == "" ==> t.notes == "" && t.category == ""
  {
    if t.notes != "" then t.notes else t.category
  }

  datatype BadgeVariant = DefaultBadge | SecondaryBadge

  /** The paid/unpaid badge: shown only on debt rows, with the status as its text, in the
      default style when paid and the secondary style otherwise. */
  datatype StatusBadge = StatusBadge(variant: BadgeVariant, text: string)

  function DebtBadge(t: Transaction): (b: Option<StatusBadge>)
    ensures b.Some? <==> t.kind == Debt
    ensures b.Some? ==> b.value.text == t.status
    ensures b.Some? ==> (b.value.variant == DefaultBadge <==> t.status == "paid")
  {
    if t.kind == Debt then
      Some(StatusBadge(if t.status == "paid" then DefaultBadge else SecondaryBadge, t.status))
    else None
  }

  // ---------------------------------------------------------------------------
  // The entry form
  // ---------------------------------------------------------------------------

  datatype DebtType = Borrowed | Gave

  datatype EntryForm = EntryForm(
    amount: string,
    category: string,
    date: string,
    notes: string,
    person: string,
    dueDate: string,
    debtType: DebtType,
    reminder: bool)

  /** The form as the page first shows it and as a submit leaves it: every text field
      empty except the date, which is `today` (the clock is a parameter here), an "I
      borrowed" debt and no reminder. */
  function DefaultForm(today: string): (f: EntryForm)
    ensures f.date == today && f.debtType == Borrowed && !f.reminder
    ensures f.amount == "" && f.category == "" && f.notes == "" && f.person == "" && f.dueDate == ""
  {
    EntryForm("", "", today, "", "", "", Borrowed, false)
  }

  /** The page with its three pieces of state: the entry tab, the history tab, the form. */
  class AddTransactionPage {
    var activeTab: Kind
    var historyFilter: HistoryFilter
    var formData: EntryForm

    /** The page as mounted on the day `today`. */
    constructor (today: string)
      ensures activeTab == Expense && historyFilter == All && formData == DefaultForm(today)
    {
      activeTab := Expense;
      historyFilter := All;
      formData := DefaultForm(today);
    }

    /** `handleSubmit`: the form goes back to its defaults with the date of the submit day;
        the two tabs stay as they are. */
    method HandleSubmit(today: string)
      modifies this
      ensures formData == DefaultForm(today)
      ensures activeTab == old(activeTab) && historyFilter == old(historyFilter)
    {
      formData := EntryForm("", "", today, "", "", "", Borrowed, false);
    }

    /** The field inputs: each replaces the form with one field changed. */
    method SetFormData(f: EntryForm)
      modifies this
      ensures formData == f && activeTab == old(activeTab) && historyFilter == old(historyFilter)
    {
      formData := f;
    }

    /** A click on one of the history tabs. */
    method SetHistoryFilter(f: HistoryFilter)
      modifies this
      ensures historyFilter == f && activeTab == old(activeTab) && formData == old(formData)
    {
      historyFilter := f;
    }

    /** A click on one of the entry tabs. */
    method SetActiveTab(k: Kind)
      modifies this
      ensures activeTab == k && historyFilter == old(historyFilter) && formData == old(formData)
    {
      activeTab := k;
    }
  }
}
