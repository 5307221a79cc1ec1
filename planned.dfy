/** The Planned page: how a planned item's status is styled, when the "Mark Paid" action is
    offered, the add-item dialog's form with its submit guard, reset and day options. */
module Planned {
  import opened Navigation

  // ---------------------------------------------------------------------------
  // Status styling and row actions
  // ---------------------------------------------------------------------------

  /** The three statuses the page styles; any other string falls to the default case. */
  predicate KnownStatus(status: string)
  {
    status == "upcoming" || status == "overdue" || status == "completed"
  }

  /** `getStatusColor`: upcoming is primary, overdue the expense colour, completed the
      income colour, anything else muted; the three known statuses get distinct colours. */
  function StatusColor(status: string): (c: string)
    ensures c == "text-primary" <==> status == "upcoming"
    ensures c == "text-expense" <==> status == "overdue"
    ensures c == "text-income" <==> status == "completed"
    ensures c == "text-muted-foreground" <==> !KnownStatus(status)
  {
    match status
    case "upcoming" => "text-primary"
    case "overdue" => "text-expense"
    case "completed" => "text-income"
    case _ => "text-muted-foreground"
  }

  /** `getStatusBg`: the matching tinted background, and the plain muted one otherwise.
      It is total and, like the text colour, tells the three known statuses apart. */
  function StatusBackground(status: string): (b: string)
    ensures b == "bg-primary/10" <==> status == "upcoming"
    ensures b == "bg-expense/10" <==> status == "overdue"
    ensures b == "bg-income/10" <==> status == "completed"
    ensures b == "bg-muted" <==> !KnownStatus(status)
    ensures b == "bg-muted" <==> StatusColor(status) == "text-muted-foreground"
  {
    match status
    case "upcoming" => "bg-primary/10"
    case "overdue" => "bg-expense/10"
    case "completed" => "bg-income/10"
    case _ => "bg-muted"
  }

  datatype StatusIcon = ClockIcon | AlertIcon | CheckIcon

  /** The icon inside the status tile: a clock for upcoming, an alert for overdue, a check
      for completed, and none for any other status. */
  function IconFor(status: string): (i: Option<StatusIcon>)
    ensures i == Some(ClockIcon) <==> status == "upcoming"
    ensures i == Some(AlertIcon) <==> status == "overdue"
    ensures i == Some(CheckIcon) <==> status == "completed"
    ensures i.Some? <==> KnownStatus(status)
    ensures i.Some? <==> StatusBackground(status) != "bg-muted"
  {
    if status == "upcoming" then Some(ClockIcon)
    else if status == "overdue" then Some(AlertIcon)
    else if status == "completed" then Some(CheckIcon)
    else None
  }

  /** Whether a row shows the "Mark Paid" button: only for upcoming items, which are
      exactly the rows whose status is drawn in the primary colour. */
  function MarkPaidOffered(status: string): (offered: bool)
    ensures offered <==> status == "upcoming"
    ensures offered <==> StatusColor(status) == "text-primary"
    ensures offered ==> IconFor(status) == Some(ClockIcon)
  {
    status == "upcoming"
  }

  /** The status badge is drawn destructive exactly for overdue items. */
  function BadgeDestructive(status: string): (destructive: bool)
    ensures destructive <==> StatusColor(status) == "text-expense"
  {
    status == "overdue"
  }

  /** The sign of a row's amount: plus for an income item, minus for everything else,
      including items that carry no type at all. */
  function PlannedPrefix(itemType: string): (p: string)
    ensures p == "+" <==> itemType == "income"
    ensures p == "-" <==> itemType != "income"
  {
    if itemType == "income" then "+" else "-"
  }

  // ---------------------------------------------------------------------------
  // The add-item dialog
  // ---------------------------------------------------------------------------

  datatype Frequency = Weekly | Monthly | Quarterly | Yearly

  datatype ItemKind = ExpenseItem | IncomeItem

  /** The dialog's form. The source keeps the two day fields as decimal strings of the
      numbers shown here. */
  datatype PlannedForm = PlannedForm(
    title: string,
    amount: string,
    category: string,
    frequency: Frequency,
    dayOfMonth: nat,
    dayOfWeek: nat,
    reminder: bool,
    kind: ItemKind)

  /** The submit button's guard: enabled exactly when title, amount and category are all
      filled in. */
  function SubmitEnabled(f: PlannedForm): (enabled: bool)
    ensures enabled <==> f.title != "" && f.amount != "" && f.category != ""
  {
    !(f.title == "" || f.amount == "" || f.category == "")
  }

  /** The day-of-month choices: offered only for a monthly item, and then exactly the days
      1 to 31 in increasing order. */
  function DayOfMonthChoices(freq: Frequency): (r: Option<seq<nat>>)
    ensures r.Some? <==> freq == Monthly
    ensures r.Some? ==> |r.value| == 31
    ensures r.Some? ==> forall i :: 0 <= i < |r.value| ==> r.value[i] == i + 1
    ensures r.Some? ==> forall d :: d in r.value <==> 1 <= d <= 31
  {
    if freq == Monthly then
      var days := seq(31, i => i + 1);
      EveryDayListed(days);
      Some(days)
    else None
  }

  lemma EveryDayListed(days: seq<nat>)
    requires |days| == 31 && forall i :: 0 <= i < 31 ==> days[i] == i + 1
    ensures forall d :: d in days <==> 1 <= d <= 31
  {
    forall d: nat | 1 <= d <= 31
      ensures d in days
    {
      assert days[d - 1] == d;
    }
  }

  /** The form as the dialog first shows it and as a submit leaves it: empty text fields,
      a monthly expense on day 1 (weekday 1) with the reminder on. Since its title is
      empty, a freshly reset form cannot be submitted again, and its day is one of the
      offered choices. */
  function DefaultForm(): (f: PlannedForm)
    ensures f.title == "" && f.amount == "" && f.category == ""
    ensures f.frequency == Monthly && f.dayOfMonth == 1 && f.dayOfWeek == 1
    ensures f.reminder && f.kind == ExpenseItem
    ensures !SubmitEnabled(f)
    ensures DayOfMonthChoices(f.frequency).Some? && f.dayOfMonth in DayOfMonthChoices(f.frequency).value
  {
    PlannedForm("", "", "", Monthly, 1, 1, true, ExpenseItem)
  }

  /** The dialog's state: whether it is open, and its form. */
  class PlannedPage {
    var isDialogOpen: bool
    var formData: PlannedForm

    constructor ()
      ensures !isDialogOpen && formData == DefaultForm()
    {
      isDialogOpen := false;
      formData := DefaultForm();
    }

    /** The dialog's `onOpenChange`: the plus button opens it, dismissing closes it. */
    method SetDialogOpen(open: bool)
      modifies this
      ensures isDialogOpen == open && formData == old(formData)
    {
      isDialogOpen := open;
    }

    /** The dialog's inputs: each replaces the form with one field changed. */
    method SetFormData(f: PlannedForm)
      modifies this
      ensures formData == f && isDialogOpen == old(isDialogOpen)
    {
      formData := f;
    }

    /** `handleSubmit`: closes the dialog and resets the form to its defaults. */
    method HandleSubmit()
      modifies this
      ensures !isDialogOpen && formData == DefaultForm()
    {
      isDialogOpen := false;
      formData := PlannedForm("", "", "", Monthly, 1, 1, true, ExpenseItem);
    }

    /** A click on the submit button: nothing while the guard disables it, and
        `handleSubmit` otherwise. After a click that submitted, the button is disabled. */
    method ClickSubmit() returns (submitted: bool)
      modifies this
      ensures submitted == SubmitEnabled(old(formData))
      ensures submitted ==> !isDialogOpen && formData == DefaultForm() && !SubmitEnabled(formData)
      ensures !submitted ==> isDialogOpen == old(isDialogOpen) && formData == old(formData)
    {
      submitted := SubmitEnabled(formData);
      if submitted {
        HandleSubmit();
      }
    }
  }
}
