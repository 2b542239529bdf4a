# Payment wizard — Dafny model

A model of the client-side payment wizard of `payment-form-creation`. The
`Index` page owns all state: the current step (form, payment-method,
card-payment, sbp-payment, processing, success), the four form fields, the
chosen method (card or SBP), the 180-second transfer countdown, the
60-second processing countdown, the "checking" flag and the generated
payment identifier. Event handlers and two one-second intervals change that
state; the transfer/processing screen is a pure rendering of it.

Files:

- `strings.dfy` (module `Strings`): character filtering (the
  `replace(/[^\d]/g, '')` idiom and space removal), decimal text of naturals
  and its inverse, and `padStart` with a one-character fill.
- `wizard.dfy` (module `Wizard`): the controller state as a value, one
  transition function per handler or timer callback, the event machine
  (`Event`, `Enabled`, `Next`, `Run`), the invariant `Inv` that every
  reachable state satisfies, and the lemmas about countdowns, identifiers
  and reset.
- `controller.dfy` (module `Controller`): class `PaymentWizard`, whose
  fields are the page's `useState` variables and whose methods update them
  in place, one per handler; each method is specified by the matching
  `Wizard` function and keeps `Inv`.
- `execution_screen.dfy` (module `ExecutionScreen`): what the transfer and
  processing screens show for given props.

The model follows the code. In particular:

- The check-payment completion (a `setTimeout`) is never cancelled. It
  always lands in processing, from whatever step the user has moved to in
  the meantime, even the form. `pendingChecks` counts the scheduled
  completions.
- `timeLeft` and `processingTime` never reach 0: the last tick resets them.
  So the invariant is `1 <= timeLeft <= 180` and `1 <= processingTime <= 60`.
- The amount check is `!(isNaN(x) || x <= 0)`, so `parseFloat` giving
  positive infinity ("Infinity", "1e999") passes it.
- The random part of the identifier is `substr(2, 9)` of the base-36 text of
  `Math.random()`, so it has at most nine characters, and may have fewer.
- A handler may only run while the screen that holds its control is shown,
  and the check button is disabled while `isChecking` is true. These are
  the `requires` of the class methods and the `Enabled` predicate. The
  screen's back callback is passed down in processing too
  (`Index.tsx:177-184`), but only the card and SBP screens render a button
  that calls it (`PaymentExecutionScreen.tsx:84`, `:164`), so going back is
  allowed on those two steps only.
- `pendingChecks` is a ghost field of the class: it stands for the
  event loop's queue of scheduled timeouts, not for any page state.

## Model

| member | source | states |
|---|---|---|
| `Wizard.FilterContractNumber` | src/pages/Index.tsx:72-76 | the stored contract number has only digits and at most 8 of them; it is a prefix of the input's digits, of length min(8, number of digits); an input that is already valid is kept as typed |
| `Wizard.FilterContractNumberIdempotent` | src/pages/Index.tsx:73-74 | filtering twice equals filtering once |
| `Strings.FilterConcat` | src/pages/Index.tsx:73 | removing characters works character by character: the filter of a concatenation is the concatenation of the filters |
| `Wizard.ContractNumberChanged` | src/pages/Index.tsx:72-76 | the stored contract number is the filtered input (digits only, at most 8); the other three fields and the rest of the state stay the same |
| `Controller.PaymentWizard.ChangeContractNumber` | src/pages/Index.tsx:72-76 | in-place update equal to `ContractNumberChanged`; keeps `Inv` |
| `Wizard.FieldChanged` | src/pages/Index.tsx:162 | the edited field (name, birth date or amount) takes the typed value; the other two free fields, the contract number and everything outside the form stay the same |
| `Controller.PaymentWizard.ChangeField` | src/pages/Index.tsx:162 | in-place update equal to `FieldChanged`; keeps `Inv` |
| `Wizard.Validate` | src/pages/Index.tsx:80-104 | the ordered cascade, each case an iff: any empty field gives MissingField; otherwise length ≠ 8 gives BadContractNumber; otherwise a non-positive or NaN amount gives BadAmount; otherwise Accepted |
| `Wizard.RejectionNotice` | src/pages/Index.tsx:81-101 | each failed check has its own destructive toast: missing field, bad contract number, bad amount |
| `Wizard.FormSubmitted` | src/pages/Index.tsx:78-106 | on acceptance the step becomes payment-method and no toast is added; on rejection the step is unchanged and exactly the toast of the first failed check is appended; the form and everything else are untouched |
| `Wizard.AcceptedContractNumber` | src/pages/Index.tsx:88 | a submit accepted from the form holds exactly eight digits |
| `Wizard.ExampleFlow` | src/pages/Index.tsx:105-115 | the example payer (name, 1990-01-01, 00283799, 1000) is accepted, and confirming card then opens card-payment with 180 seconds |
| `Controller.PaymentWizard.SubmitForm` | src/pages/Index.tsx:78-106 | in-place update equal to `FormSubmitted`; keeps `Inv` |
| `Controller.PaymentWizard.ChangeMethod` | src/pages/Index.tsx:171 | only `paymentMethod` changes |
| `Controller.PaymentWizard.BackToForm` | src/pages/Index.tsx:172 | from payment-method back to form; only the step changes |
| `Wizard.MethodSelected` | src/pages/Index.tsx:108-115 | countdown set to 180; the step is card-payment exactly when the method is card, sbp-payment otherwise; nothing else changes |
| `Controller.PaymentWizard.SelectMethod` | src/pages/Index.tsx:108-115 | in-place update equal to `MethodSelected`; keeps `Inv` |
| `Controller.PaymentWizard.BackToMethods` | src/pages/Index.tsx:184 | from card or SBP back to payment-method; only the step changes |
| `Controller.PaymentWizard.CheckPayment` | src/pages/Index.tsx:117-124 | allowed only on a transfer screen while not checking; sets `isChecking`, resets `processingTime` to 60, schedules one completion |
| `Wizard.CheckCompleted` | src/pages/Index.tsx:120-123 | from any step: the step becomes processing, `isChecking` false and one scheduled completion is used up; nothing else changes |
| `Controller.PaymentWizard.CompleteCheck` | src/pages/Index.tsx:120-123 | in-place update equal to `CheckCompleted`; keeps `Inv` |
| `Wizard.TransferTicked` | src/pages/Index.tsx:27-47 | only step, `timeLeft` and toasts can change; the step changes iff on a transfer screen with 1 second left, and then goes to payment-method with 180 seconds and one expiry toast; otherwise the tick takes one second off on a transfer screen or does nothing; 1..180 is preserved |
| `Controller.PaymentWizard.TransferTick` | src/pages/Index.tsx:27-47 | in-place update equal to `TransferTicked`; keeps `Inv` |
| `Wizard.TransferCountsDown` | src/pages/Index.tsx:41 | fewer ticks than the seconds left only take that many seconds off |
| `Wizard.TransferExpires` | src/pages/Index.tsx:31-39 | a transfer screen with t seconds left returns to payment-method after exactly t ticks, with 180 seconds and one expiry toast |
| `Wizard.ProcessingTicked` | src/pages/Index.tsx:49-70 | the step changes iff processing with 1 second left, and then goes to success with the new identifier, 60 seconds and one success toast; otherwise the identifier is unchanged and the tick takes one second off in processing or does nothing; 1..60 is preserved |
| `Controller.PaymentWizard.ProcessingTick` | src/pages/Index.tsx:49-70 | in-place update equal to `ProcessingTicked`; keeps `Inv` |
| `Wizard.ProcessingCountsDown` | src/pages/Index.tsx:64 | fewer ticks than the seconds left only take that many seconds off |
| `Wizard.ProcessingCompletes` | src/pages/Index.tsx:53-62 | processing with t seconds left reaches success after exactly t ticks |
| `Wizard.PaymentIdFor` | src/pages/Index.tsx:55 | the identifier is non-empty and starts with "PAY-" |
| `Wizard.PaymentIdFormat` | src/pages/Index.tsx:55 | after "PAY-" come the decimal digits of `Date.now()`, which read back to that value, then "-", then the upper-cased `substr(2, 9)` of the base-36 random text: at most nine upper-case base-36 characters |
| `Wizard.PaymentIdChanges` | src/pages/Index.tsx:56 | the identifier changes only on the last processing tick, where it is set, and on new payment, where it is cleared |
| `Wizard.NewPaymentStarted` | src/pages/Index.tsx:140-145 | step form, all four fields empty, identifier empty, 180 seconds; method, processing countdown, checking flag and toasts unchanged |
| `Wizard.NewPaymentIdempotent` | src/pages/Index.tsx:140-145 | resetting twice equals resetting once |
| `Controller.PaymentWizard.NewPayment` | src/pages/Index.tsx:140-145 | in-place update equal to `NewPaymentStarted`; keeps `Inv` |
| `Controller.PaymentWizard.CopyToClipboard` | src/pages/Index.tsx:132-138 | appends the "copied" toast and changes nothing else |
| `Wizard.FormatTime` | src/pages/Index.tsx:126-130 | returns whole minutes only: minutes*60 ≤ s < minutes*60 + 60 |
| `Wizard.InitialInv` | src/pages/Index.tsx:13-24 | the mount state satisfies `Inv` |
| `Controller.PaymentWizard.constructor` | src/pages/Index.tsx:13-24 | every field takes its `useState` default |
| `Wizard.NextPreservesInv` | src/pages/Index.tsx:27-145 | every allowed event keeps `Inv`: filtered contract number, both countdowns in range, `isChecking` iff a completion is pending, no pending completion in processing or success, identifier present iff on success and then prefixed "PAY-" |
| `Wizard.RunPreservesInv` | src/pages/Index.tsx:27-145 | any sequence of allowed events keeps `Inv` |
| `ExecutionScreen.MinutesText` | src/components/payment/PaymentExecutionScreen.tsx:38 | digit text without a leading zero that reads back as t div 60 |
| `ExecutionScreen.SecondsText` | src/components/payment/PaymentExecutionScreen.tsx:38 | exactly two digits that read back as t mod 60 |
| `ExecutionScreen.CountdownText` | src/components/payment/PaymentExecutionScreen.tsx:38 | the text is the minutes part, ":", then the two-digit seconds part |
| `ExecutionScreen.CountdownRecombines` | src/components/payment/PaymentExecutionScreen.tsx:115 | minutes*60 + seconds = t, and the seconds part is below 60 |
| `Strings.ZeroPadValue` | src/components/payment/PaymentExecutionScreen.tsx:214 | zero padding keeps a digit string's value |
| `ExecutionScreen.ProgressPercent` | src/components/payment/PaymentExecutionScreen.tsx:203 | the elapsed share of the 60-second window in whole percent, rounded down; 0% at 60 seconds left, 100% at 0, within 0..100 in between |
| `ExecutionScreen.ProgressMonotone` | src/components/payment/PaymentExecutionScreen.tsx:203 | less time left never shows less progress |
| `ExecutionScreen.CardCopyMatches` | src/components/payment/PaymentExecutionScreen.tsx:48-52 | the copied card number is the shown one without spaces |
| `ExecutionScreen.PhoneCopyMatches` | src/components/payment/PaymentExecutionScreen.tsx:128-132 | the copied phone number is the shown one without spaces |
| `ExecutionScreen.FilterJoin` | src/components/payment/PaymentExecutionScreen.tsx:48 | removing the spaces from space-separated groups leaves the groups run together |
| `ExecutionScreen.TargetCopied` | src/components/payment/PaymentExecutionScreen.tsx:52 | each screen's copy text is its shown target without spaces |
| `ExecutionScreen.Render` | src/components/payment/PaymentExecutionScreen.tsx:29-230 | a transfer view exactly on card/SBP and a processing view exactly on processing; the channel matches the step; red iff less than 60 seconds; check button disabled iff checking; the card screen shows the card number and the SBP screen the phone number, and the copy text is the shown target without spaces; only the SBP screen shows the recipient bank; countdown text from `CountdownText`; progress is `ProgressPercent` of the processing time, so 0% at 60 and 100% at 0 |

## Left out

- React plumbing: `useState`, the registration and clean-up of the two
  intervals and `clearInterval`. Each interval firing is one
  `TransferTick`/`ProcessingTick` call. A tick in a state where the interval
  would not be registered does nothing.
- Real time: the two-second `setTimeout` is the separate `CompleteCheck`
  event, which the event loop may deliver at any later point.
- `parseFloat`/`isNaN`: `parseFloat` is a function parameter returning
  NaN, a finite real or an infinity. Floating-point parsing itself is not
  modelled.
- `Date.now()` and `Math.random().toString(36)` are parameters of
  `ProcessingTick`. `toUpperCase` is modelled only on base-36 text, which
  is all it receives.
- Side effects: the clipboard write is not modelled. Toasts are recorded in
  the `notifications` log with their title, description and variant. They
  are not displayed.
- React may run state updaters twice in development mode, which would
  double a toast. This is not modelled.
- `ExecutionScreen.ProgressPercent`: computes the floor of the exact
  quotient, not of the floating-point expression. For the integer values
  0..60 that `processingTime` takes, the double expression rounds down to
  the same whole percent, but that agreement is a property of IEEE
  arithmetic and is not proved here. The bar width style is not modelled.
- `ExecutionScreen.Render`: takes `timeLeft` and `processingTime` as
  naturals, which `Inv` guarantees. It does not render the amount
  (`toLocaleString`), headings, icons or instructions.
- `Wizard.FormatTime`: integer seconds only. The page passes it to the
  screen, which does not call it.
- The native `required`, `pattern` and `maxLength` attributes of the form
  inputs (`PaymentForm.tsx`) are browser behaviour and are not modelled.
  `SubmitForm` models the handler's own checks, even where the browser
  would stop a submit first.
- `PaymentForm.tsx`, `PaymentMethodSelector.tsx` and `SuccessScreen.tsx`
  are not part of this model, beyond the callbacks they invoke. They only
  render and forward callbacks. The same goes for the receipt date
  (`toLocaleString`).
- `EmbedCode.tsx` is not part of this model. It is a page with an origin
  string template, clipboard access and navigation.
