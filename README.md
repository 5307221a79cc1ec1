# Hisobot AI pocket: the page state machines in Dafny

Hisobot AI is a personal-finance front end. Its screens suggest a scheduling, aggregation
and insight engine, but the code has none. The Planned page shows statuses and next dates
that are fixed literals. The Analytics page shows totals, rankings, insights and its trend
figure as literals too. This model follows the code, so none of that engine is modelled.
What the code does decide is modelled here. That is four pages' worth of user-interface
state, with their guards and one list filter:

- **Onboarding** (`onboarding.dfy`, module `Onboarding`). The setup wizard has a step counter
  that runs from 1 to 5, the Next and Back handlers, a single-field profile update and the
  guard that disables Next. The pure transition functions specify the handlers. The class
  `Wizard` holds `step` and `formData` and is proved against them. The lemmas show that every
  sequence of Next/Back calls keeps the step in 1..5. They also show that every run of user
  events the page offers keeps the wizard consistent. So navigation to the dashboard happens
  only once name, language and currency are set.
- **Welcome** (`welcome.dfy`, module `Welcome`). The sign-in flow has three screens: language,
  phone and verification code. The flags `showAuth` and `showOTP` select the screen. The
  flow has length guards on the number and the code, and Back clears the field of the screen
  being left. The invariant `Consistent` says `showOTP ==> showAuth`. It also says the code
  screen only appears for a number longer than 8, and that the number and code are empty
  until their screen is reached. Every handler keeps it, and so does every run of offered
  events. The class `WelcomePage` holds the five state variables.
- **Add Transaction** (`add_transaction.dfy`, module `AddTransaction`). The history filter is
  specified by membership, length, concatenation and the position of every kept record. The
  file also has the form reset on submit, and for each history row the amount sign, heading,
  subtitle and debt badge.
- **Planned** (`planned.dfy`, module `Planned`). This file has the status-to-colour,
  status-to-background and status-to-icon mappings, and when "Mark Paid" is offered. It also
  has the dialog's submit guard, its reset on submit and the day-of-month options.
- `navigation.dfy` (module `Navigation`) holds `Option` and the two router destinations. The
  router is not modelled: a destination is only an output value.

Some inputs come from outside the code. What the code takes from the clock, from
`Math.random` and from the router is modelled as parameters or results. The date for the
transaction form is a `today` parameter. Whether a verified user is new is an `isNewUser`
parameter. A navigation is a returned `Option<Route>`.

The phone screen of `Welcome` renders only when `showAuth` is true (`src/pages/Welcome.tsx:62`
returns earlier otherwise). So the "Continue with Phone" button and the "Welcome!" and
"Sign in to continue" alternatives in that branch (`src/pages/Welcome.tsx:186-228`) can never
be shown. The model has no event for that button.

## Model

| member | source | states |
|---|---|---|
| `Navigation.Path` | src/pages/Welcome.tsx:44-48 | The dashboard and onboarding destinations get the paths "/dashboard" and "/onboarding", and no other destination gets either path |
| `Onboarding.EmptyProfile` | src/pages/Onboarding.tsx:31-36 | The wizard's form starts with every field empty |
| `Onboarding.Update` | src/pages/Onboarding.tsx:57-59 | Updating a field sets exactly that field to the value; every other field keeps its old value |
| `Onboarding.AfterNext` | src/pages/Onboarding.tsx:39-49 | Next below step 5 moves to exactly step+1 with no navigation; at step 5 it keeps the step and navigates to the dashboard; it keeps a step in 1..5 within 1..5; Back undoes an advance |
| `Onboarding.AfterBack` | src/pages/Onboarding.tsx:51-55 | Back above step 1 moves to exactly step-1; it changes the step iff the Back button is offered (step > 1, line 217), so at step 1 it changes nothing; it keeps 1..5 |
| `Onboarding.FieldOfStep` | src/pages/Onboarding.tsx:61-193 | Steps 1 to 4 each edit one form field (name, language, currency, budget); step 5 and any other value edit none |
| `Onboarding.NextBlockedByOwnField` | src/pages/Onboarding.tsx:226-230 | Next is disabled at step 1 iff the name is empty, at step 2 iff the language is empty, at step 3 iff the currency is empty (each the field that step edits), and never at steps 4 or 5 |
| `Onboarding.StepStaysInRange` | src/pages/Onboarding.tsx:30-55 | Starting in 1..5, every sequence of Next/Back handler calls ends in 1..5 |
| `Onboarding.Handle` | src/pages/Onboarding.tsx:222-233 | A Next click while the button's guard disables it (step 1 with no name, step 2 with no language, step 3 with no currency) changes nothing; offered events keep the wizard consistent; navigation happens only with name, language and currency set |
| `Onboarding.ConsistentAlongRun` | src/pages/Onboarding.tsx:29-238 | Every run of offered events from a consistent state stays consistent: step in 1..5, name set past step 1, language set past step 2, currency set past step 3, selects hold only offered codes |
| `Onboarding.Initial` | src/pages/Onboarding.tsx:30-36 | The wizard starts at step 1 with the empty form, in a consistent state |
| `Onboarding.Wizard.constructor` | src/pages/Onboarding.tsx:30-36 | The page starts at step 1 with the empty form |
| `Onboarding.Wizard.HandleNext` | src/pages/Onboarding.tsx:42-49 | The new step and the navigation are those of `AfterNext`; the form is unchanged; 1..5 is kept |
| `Onboarding.Wizard.HandleBack` | src/pages/Onboarding.tsx:51-55 | The new step is that of `AfterBack`; the form is unchanged; 1..5 is kept |
| `Onboarding.Wizard.UpdateFormData` | src/pages/Onboarding.tsx:57-59 | The form becomes `Update(old form, field, value)`; the step is unchanged and stays in 1..5 |
| `Onboarding.Wizard.ClickNext` | src/pages/Onboarding.tsx:222-233 | A click on Next has the effect `Handle` gives it: none while disabled, `handleNext` otherwise |
| `Welcome.JsLength` | src/pages/Welcome.tsx:30 | A string's length is counted as JavaScript's `length` counts it, in UTF-16 units: one character counts 1 inside the Basic Multilingual Plane and 2 outside it; any string measures between its character count and twice it, and exactly its character count without characters outside that plane |
| `Welcome.JsLengthAppend` | src/pages/Welcome.tsx:30 | The length of a concatenation is the sum of the lengths of its parts, so together with the one-character case the length of every string is fixed |
| `Welcome.AstralCharacterCountsTwice` | src/pages/Welcome.tsx:208-216 | Seven digits and one emoji measure 9 units, so the Send button is enabled for them |
| `Welcome.ScreenOf` | src/pages/Welcome.tsx:62-168 | The language screen shows iff `showAuth` is off; the code screen iff both flags are on; the phone screen iff only `showAuth` is on |
| `Welcome.SendEnabled` | src/pages/Welcome.tsx:208-216 | The Send button's enabling condition (length not below 9) holds exactly when the handler's guard (length above 8) does |
| `Welcome.VerifyEnabled` | src/pages/Welcome.tsx:147-152 | The Verify button is enabled exactly when the code is 6 UTF-16 units long, which is the handler's guard |
| `Welcome.SelectLanguage` | src/pages/Welcome.tsx:24-27 | Selecting a language records the code and turns `showAuth` on; nothing else changes; from the language screen it leads to the phone screen |
| `Welcome.SendOtp` | src/pages/Welcome.tsx:29-35 | With a number longer than 8 only `showOTP` turns on (the phone screen becomes the code screen); otherwise nothing changes |
| `Welcome.VerifyRoute` | src/pages/Welcome.tsx:37-50 | Verification navigates iff the code is exactly 6 UTF-16 units long: to onboarding for a new user, to the dashboard otherwise; with any other code there is no navigation |
| `Welcome.Back` | src/pages/Welcome.tsx:52-60 | From the code screen Back hides it and clears the code, keeping `showAuth` and the number; otherwise it hides auth and clears the number; in a consistent state it goes back exactly one screen |
| `Welcome.Handle` | src/pages/Welcome.tsx:24-60 | Each handler, fired from a control on the screen where it is rendered, keeps the invariant `Consistent` |
| `Welcome.ConsistentAlongRun` | src/pages/Welcome.tsx:16-239 | Every run of offered events from a consistent state stays consistent, so `showOTP ==> showAuth` holds throughout |
| `Welcome.Initial` | src/pages/Welcome.tsx:17-21 | The initial state is consistent and shows the language screen |
| `Welcome.WelcomePage.constructor` | src/pages/Welcome.tsx:17-21 | The page starts with language "en", both flags off and both fields empty |
| `Welcome.WelcomePage.HandleLanguageSelect` | src/pages/Welcome.tsx:24-27 | The new state is `SelectLanguage(old state, code)`; the invariant is kept |
| `Welcome.WelcomePage.SetPhoneNumber` | src/pages/Welcome.tsx:200-206 | On the phone screen only the number changes; the invariant is kept |
| `Welcome.WelcomePage.HandleSendOtp` | src/pages/Welcome.tsx:29-35 | The new state is `SendOtp(old state)`; the invariant is kept |
| `Welcome.WelcomePage.SetOtpValue` | src/pages/Welcome.tsx:131-135 | On the code screen, with at most 6 UTF-16 units, only the code changes; the invariant is kept |
| `Welcome.WelcomePage.HandleVerifyOtp` | src/pages/Welcome.tsx:37-50 | There is no state change; the destination is `VerifyRoute(state, isNewUser)` |
| `Welcome.WelcomePage.HandleBack` | src/pages/Welcome.tsx:52-60 | The new state is `Back(old state)`; the invariant is kept |
| `AddTransaction.Filtered` | src/pages/AddTransaction.tsx:115-118 | A record is in the filtered list iff it is in the input and the tab keeps it (every record for "all", records of that kind otherwise) |
| `AddTransaction.FilteredAll` | src/pages/AddTransaction.tsx:115-116 | With the "all" tab the filtered list equals the full list |
| `AddTransaction.FilteredLength` | src/pages/AddTransaction.tsx:115-118 | The filtered list is exactly as long as the number of kept records |
| `AddTransaction.FilteredAppend` | src/pages/AddTransaction.tsx:115-118 | Filtering a concatenation gives the concatenation of the filtered parts, in order |
| `AddTransaction.FilteredPosition` | src/pages/AddTransaction.tsx:115-118 | Every kept record appears in the result, at the index equal to the number of kept records before it |
| `AddTransaction.CountKeptGrows` | src/pages/AddTransaction.tsx:115-118 | A kept record comes strictly before every later record in that index, so kept records keep their relative order |
| `AddTransaction.AmountPrefix` | src/pages/AddTransaction.tsx:389-391 | The amount is prefixed "-" iff the record is an expense, "+" iff income, and nothing iff debt |
| `AddTransaction.RowTitle` | src/pages/AddTransaction.tsx:380-382 | The row heading is the person for a debt and the category otherwise |
| `AddTransaction.RowSubtitle` | src/pages/AddTransaction.tsx:395-397 | The line under the heading is the notes when there are any, else the category |
| `AddTransaction.DebtBadge` | src/pages/AddTransaction.tsx:402-409 | The status badge appears iff the row is a debt; it shows the status and uses the default style iff the status is "paid" |
| `AddTransaction.DefaultForm` | src/pages/AddTransaction.tsx:85-94 | The default form has empty text fields, the date set to the supplied day, debt type "borrowed" and the reminder off |
| `AddTransaction.AddTransactionPage.constructor` | src/pages/AddTransaction.tsx:83-94 | The page starts on the expense tab, with the "all" history tab and the default form for today |
| `AddTransaction.AddTransactionPage.HandleSubmit` | src/pages/AddTransaction.tsx:100-113 | Submitting resets the form to the same defaults as at 85-94, with the submit day's date; both tabs are unchanged |
| `AddTransaction.AddTransactionPage.SetFormData` | src/pages/AddTransaction.tsx:155-156 | A field input replaces the form; the tabs are unchanged |
| `AddTransaction.AddTransactionPage.SetHistoryFilter` | src/pages/AddTransaction.tsx:352-359 | A history tab click sets the filter; nothing else changes |
| `AddTransaction.AddTransactionPage.SetActiveTab` | src/pages/AddTransaction.tsx:131-145 | An entry tab click sets the active kind; nothing else changes |
| `Planned.StatusColor` | src/pages/Planned.tsx:112-119 | The colour is text-primary iff upcoming, text-expense iff overdue, text-income iff completed, text-muted-foreground iff the status is anything else |
| `Planned.StatusBackground` | src/pages/Planned.tsx:121-128 | The background is bg-primary/10 iff upcoming, bg-expense/10 iff overdue, bg-income/10 iff completed, bg-muted iff anything else, which is iff its text colour is muted; every status gets one |
| `Planned.IconFor` | src/pages/Planned.tsx:326-328 | The clock is drawn iff the status is "upcoming", the alert iff "overdue", the check iff "completed"; so an icon is drawn iff the status is one of the three known ones, which is iff its background is tinted |
| `Planned.MarkPaidOffered` | src/pages/Planned.tsx:368-377 | "Mark Paid" is offered iff the status is "upcoming", which is iff the row is drawn in the primary colour, with the clock icon |
| `Planned.BadgeDestructive` | src/pages/Planned.tsx:357-362 | The status badge is destructive iff the status is drawn in the expense colour (overdue) |
| `Planned.PlannedPrefix` | src/pages/Planned.tsx:336-338 | A planned amount is prefixed "+" iff the item's type is "income" and "-" otherwise, an untyped item included |
| `Planned.SubmitEnabled` | src/pages/Planned.tsx:270-276 | Submit is enabled iff title, amount and category are all non-empty |
| `Planned.DayOfMonthChoices` | src/pages/Planned.tsx:243-259 | The day selector appears iff the frequency is monthly; it offers 31 values, the i-th being i+1, and a day is offered iff it is in 1..31 |
| `Planned.DefaultForm` | src/pages/Planned.tsx:97-106 | The default form is a monthly expense on day 1, weekday 1, reminder on, with empty title, amount and category; it cannot be submitted, and its day is among the offered choices |
| `Planned.PlannedPage.constructor` | src/pages/Planned.tsx:96-106 | The dialog starts closed with the default form |
| `Planned.PlannedPage.SetDialogOpen` | src/pages/Planned.tsx:162 | Opening or dismissing the dialog sets its flag and keeps the form |
| `Planned.PlannedPage.SetFormData` | src/pages/Planned.tsx:178-179 | A field input replaces the form and keeps the dialog's flag |
| `Planned.PlannedPage.HandleSubmit` | src/pages/Planned.tsx:130-143 | Submitting closes the dialog and resets the form to the same defaults as at 97-106 |
| `Planned.PlannedPage.ClickSubmit` | src/pages/Planned.tsx:270-276 | A click submits iff the guard enables the button; after a submit the dialog is closed and the form is reset and disabled again; otherwise nothing changes |

## Left out

- The recurrence scheduler, period aggregation, category ranking and insight rules. The code
  does not implement them: planned statuses and next dates, totals, percentages and the trend
  figure are literals (src/pages/Planned.tsx:36-93, src/pages/Analytics.tsx:21-66 and 222,
  src/pages/Dashboard.tsx:21-58). Modelling them would mean inventing behaviour.
- `markAsPaid` (src/pages/Planned.tsx:145-147) only logs, so it has no state transition to
  model. Only the rule for when its button is offered is modelled.
- Currency and date formatting with `Intl.NumberFormat` and `toLocaleDateString`, because
  they are locale libraries.
- The system clock. The form date is the `today` parameter, and the string split of
  `toISOString` is not modelled.
- `console.log` calls.
- `Math.random`. The new-user decision is the `isNewUser` parameter, so both destinations are
  covered.
- Router navigation, which appears only as a returned destination.
- The progress bar percentage and other floating-point widths.
- `localStorage`, i18next and the translation tables.
- The Settings and Dashboard pages, and all layout and styling. This includes the kind-coloured
  icon tiles and amount colours in the transaction history (src/pages/AddTransaction.tsx:367-388).
- The mock data arrays, since the filter and the row rules are stated for any list of records.
- Onboarding.Update: the source takes the field name as a string. It is only ever called with
  the four form fields, and those are the model's `Field` values. A different name would add
  a new property in the source; that case is not modelled.
- AddTransaction.Filtered: the history tab is a closed choice of "all" or one of the three
  kinds, because the tab list offers only those values. A string matching no kind would make
  the source show nothing; that case is not modelled.
- Planned.DayOfMonthChoices: the source stores and offers the days as decimal strings
  (`String(i + 1)`). The model uses the numbers themselves.
- String lengths in the sign-in flow are counted in UTF-16 units, as JavaScript's `length`
  and the code input's `maxLength` count them (`Welcome.JsLength`). Characters are Unicode
  scalar values, so unpaired surrogates, which a JavaScript string can hold, are not modelled.
- Welcome.WelcomePage.SetPhoneNumber and Welcome.WelcomePage.SetOtpValue require their own
  screen, because their inputs are rendered only there. The code input's cap of six UTF-16 units
  comes from the input widget's `maxLength`.
