# PayStreet wizards in Dafny

A model of the three multi-step flows of the PayStreet demo app, with proofs
about their state machines and derived values:

- **Send money** (`send-money.tsx`). It has seven fixed steps: recipient, bank,
  amount, method, schedule, review, complete. It keeps a record of the
  collected fields. Each payment method sets its own fee and arrival estimate,
  and the total shown is amount + fee. Sending stamps a `PAY…` reference id.
- **Add beneficiary** (`beneficiary-management.tsx`). It has a step counter from
  1 to 5, an eight-field form and a searchable constant list of beneficiaries.
  Each status maps to a badge style.
- **Currency conversion** (`currency-conversion.tsx`). It has three steps: quote,
  review, complete. The converted amount is `max(0, amount × rate − fee)`. A
  300-second quote timer counts down on an unlocked review and reverts the
  flow to the quote step when it runs out. Rate locking, currency swap, the
  `m:ss` timer text and a `CNV…` reference id are modelled too.

Each component's React state cells are the fields of one Dafny class, and each
event handler is a method. Every method keeps a `Valid()` invariant and states
the whole new state. A handler whose control appears on one screen only
requires that screen's step. The things the components compute are pure
functions, with lemmas about them beside.

Files:

- `wrappers.dfy`: the `Option` type.
- `text.dfy`: decimal rendering, reading number-input strings as `parseFloat`
  does, `slice(-n)`, lower-casing and `includes`.
- `reference_id.dfy`: the reference ids.
- `send_money.dfy`, `beneficiary_management.dfy`, `currency_conversion.dfy`:
  the three components.

Modelling decisions:

- Money is `real`.
- `parseFloat` is modelled as `ParseNumber`, over the exponent-free subset of
  what an `<input type="number">` can hold: an optional minus sign, then digits
  with an optional fraction, or a fraction alone. `None` plays the role of NaN.
  `SendMoneyWizard.EditText` and `CurrencyConverter.SetAmount` require a new
  amount to lie in that subset, so exponent forms such as `1e3` are outside
  the model.
- `Date.now()` is a `now: nat` parameter. `new Date().toISOString().split('T')[0]`
  is a `today: string` parameter.
- The `setInterval` callback is the `Tick` method.
- The converted-amount `useEffect` is `Derive`. It runs at the end of every
  handler that changes its inputs.

Facts about the code that the model keeps:

- Continue on an incomplete step is a disabled button, so it does nothing
  (`SendMoneyWizard.Continue`).
- The $2.50 rate-lock fee is only displayed. It is never subtracted from the
  converted amount.
- A locked rate cannot be locked again only because the button is hidden.
- "Back to Quote" keeps the lock. "New Conversion" clears it but keeps the
  timer value.
- Finishing the add-beneficiary flow appends nothing to the list.
- 1000 at 0.85 less a fee of 5 converts to 845 (`ConvertedExample`).

## Model

| member | source | states |
|---|---|---|
| SendMoney.StepIndex | src/components/send-money.tsx:83-94 | every step has exactly one position in the seven-step sequence |
| SendMoney.NextStep | src/components/send-money.tsx:97-102 | Next raises the step index by one, except on the last step, where it stays |
| SendMoney.PrevStep | src/components/send-money.tsx:104-109 | Back lowers the step index by one, except on the first step, where it stays |
| SendMoney.NextStepClamped | src/components/send-money.tsx:97-102 | Next never goes past `complete` and is a no-op exactly there |
| SendMoney.PrevStepClamped | src/components/send-money.tsx:104-109 | Back is a no-op exactly on `recipient` |
| SendMoney.BackThenNext | src/components/send-money.tsx:97-109 | Back then Next returns to any step from `bank` to `complete` |
| SendMoney.NextThenBack | src/components/send-money.tsx:97-109 | Next then Back returns to any step from `recipient` to `review` |
| SendMoney.Progress | src/components/send-money.tsx:94-95 | progress (index+1)/7·100 is above 0, at most 100, and 100 exactly on `complete`; `ProgressGrows` adds that every Next before `complete` raises it |
| SendMoney.ProgressGrows | src/components/send-money.tsx:94-95 | every Next before `complete` makes the progress bar fuller |
| SendMoney.MethodRow | src/components/send-money.tsx:58-63 | each method id has a row in the payment-method table |
| SendMoney.MethodFees | src/components/send-money.tsx:58-63 | the fees are SWIFT 25, ACH 5, SEPA 2, Faster Payments 1 |
| SendMoney.MethodRowUnique | src/components/send-money.tsx:58-63 | no two rows share an id, so a method id determines its row |
| SendMoney.InitialData | src/components/send-money.tsx:67-81 | the initial record is `saved` and SWIFT with fee 25 matching its row, with empty text fields and no ids |
| SendMoney.WithMethod | src/components/send-money.tsx:406-411 | choosing a method sets the method and the fee and arrival of its row; every other field of the record is kept |
| SendMoney.Total | src/components/send-money.tsx:591 | the total exists iff the amount parses, and then it exceeds the amount by the fee |
| SendMoney.TotalFollowsMethod | src/components/send-money.tsx:406-411 | after a method change the total is amount + that method's fee, and the amount is unchanged |
| SendMoney.TotalExample | src/components/send-money.tsx:360 | 500 by SWIFT totals 525; switching to Faster Payments totals 501 |
| SendMoney.ContinueEnabled | src/components/send-money.tsx:196-381 | Continue is never enabled on `review` or `complete`, and an enabled Continue never leaves a step whose required fields are empty (the step invariant `ProgressJustified` is kept) |
| SendMoney.EditKeepsJustified | src/components/send-money.tsx:191-323 | editing an input that is on screen never empties a field that an already-passed step required |
| SendMoney.ReviewHasDetails | src/components/send-money.tsx:548-575 | on `review`, the recipient, bank, account number, amount and purpose are all non-empty |
| SendMoney.SendMoneyWizard.constructor | src/components/send-money.tsx:66-81 | the wizard starts on `recipient` with the initial record |
| SendMoney.SendMoneyWizard.SelectRecipientType | src/components/send-money.tsx:144 | a recipient tab sets only the recipient type |
| SendMoney.SendMoneyWizard.EditText | src/components/send-money.tsx:191-323 | an input changes only its own field, and only on the step that shows it |
| SendMoney.SendMoneyWizard.Continue | src/components/send-money.tsx:196-533 | Continue advances one step when its guard holds and otherwise changes nothing; data never changes |
| SendMoney.SendMoneyWizard.Back | src/components/send-money.tsx:104-109 | Back moves to the previous step (clamped) and leaves the record unchanged |
| SendMoney.SendMoneyWizard.SelectBeneficiary | src/components/send-money.tsx:111-120 | choosing a saved entry sets type `saved`, copies id, name and bank, keeps every other field, and moves to `bank` |
| SendMoney.SendMoneyWizard.SelectMethod | src/components/send-money.tsx:406-411 | a method card sets method, fee and arrival from its row; amount and step are unchanged |
| SendMoney.SendMoneyWizard.SetSendImmediately | src/components/send-money.tsx:462-467 | the switch clears the scheduled date when checked and sets today's date otherwise |
| SendMoney.SendMoneyWizard.SetScheduledDate | src/components/send-money.tsx:478-484 | the date input sets only the scheduled date |
| SendMoney.SendMoneyWizard.SetRecurring | src/components/send-money.tsx:494-497 | the recurring switch sets only the recurring flag |
| SendMoney.SendMoneyWizard.SetFrequency | src/components/send-money.tsx:507 | the frequency select sets only the frequency |
| SendMoney.SendMoneyWizard.SendPayment | src/components/send-money.tsx:122-126 | Send Payment sets the id to `PAY` + last 8 timestamp digits, jumps to `complete`, and changes no other field |
| SendMoney.SendMoneyWizard.SendAnother | src/components/send-money.tsx:655-671 | Send Another restores exactly the initial step and record |
| Reference.ReferenceId | src/components/send-money.tsx:123 | an id is the prefix followed by at most 8 digits |
| Reference.SuffixValue | src/components/send-money.tsx:123 | the last k digits of a rendered number are worth the number mod 10^k |
| Reference.ReferenceIdDigits | src/components/send-money.tsx:123 | the digits after the prefix read back as the timestamp mod 10^8 |
| Reference.ReferenceIdLength | src/components/send-money.tsx:123 | for any timestamp of at least 8 digits the id has exactly 8 digits |
| Reference.ReferenceIdDistinct | src/components/currency-conversion.tsx:101 | timestamps less than 10^8 ms apart give different ids under one prefix |
| Text.NatToString | src/components/currency-conversion.tsx:90 | `toString` of a non-negative integer below 2^53 is a digit string without leading zeros whose value is the integer |
| Text.ParseNumber | src/components/currency-conversion.tsx:80 | `parseFloat` yields a number only for a non-empty string, and reads an unsigned string as an unsigned decimal |
| Text.ParseNatToString | src/components/currency-conversion.tsx:80 | parsing a rendered integer gives that integer back |
| Text.ParseNegativeNatToString | src/components/currency-conversion.tsx:80 | parsing a minus sign followed by a rendered integer gives its negation |
| Text.ParseDecimal | src/components/currency-conversion.tsx:80 | parsing `w.f` gives w plus the fraction f |
| Text.FractionValue | src/components/currency-conversion.tsx:80 | the digits after a decimal point are worth at least 0 and less than 1 |
| Text.LastN | src/components/send-money.tsx:123 | for n ≥ 1, `slice(-n)` gives the last n characters, or the whole string when it is shorter |
| Text.LowerIdempotent | src/components/beneficiary-management.tsx:146 | lower-casing twice is the same as lower-casing once |
| Text.Lower | src/components/beneficiary-management.tsx:146-147 | `toLowerCase` keeps the length and maps each character by itself: upper-case ASCII letters to lower case, everything else unchanged; `LowerIdempotent` shows it is idempotent |
| Text.ContainsIffOccurs | src/components/beneficiary-management.tsx:146-147 | `includes` holds iff the term is a prefix of some suffix of the text |
| Text.Contains | src/components/beneficiary-management.tsx:146-147 | `includes` holds whenever the text starts with the term (so for the empty term always), and never for a term longer than the text; `ContainsIffOccurs` characterises it exactly |
| BeneficiaryManagement.FieldStep | src/components/beneficiary-management.tsx:150-256 | every form input belongs to one of the steps 1 to 5 |
| BeneficiaryManagement.NextStep | src/components/beneficiary-management.tsx:109-113 | Next adds one below step 5 and is a no-op from 5 on |
| BeneficiaryManagement.PrevStep | src/components/beneficiary-management.tsx:115-119 | Back subtracts one above step 1 and is a no-op from 1 down |
| BeneficiaryManagement.NavigateInRange | src/components/beneficiary-management.tsx:109-119 | under any sequence of Next and Back the step stays in 1..5 |
| BeneficiaryManagement.NextReachesLast | src/components/beneficiary-management.tsx:109-113 | four Nexts from step 1 reach step 5, and a fifth stays there |
| BeneficiaryManagement.StepTitle | src/components/beneficiary-management.tsx:396 | `stepTitles[currentStep - 1]` is in bounds for steps 1..5 |
| BeneficiaryManagement.StepProgress | src/components/beneficiary-management.tsx:107 | step/5·100 lies in [20, 100] for steps 1..5 and is 100 exactly on step 5 |
| BeneficiaryManagement.StatusBadge | src/components/beneficiary-management.tsx:136-143 | the badge is one of three styles: the verified style iff `verified`, the failed style iff `failed`, the pending style otherwise |
| BeneficiaryManagement.StatusBadgeLookup | src/components/beneficiary-management.tsx:136-143 | the three statuses get distinct styles, and any unknown status gets the pending one |
| BeneficiaryManagement.Matches | src/components/beneficiary-management.tsx:146-147 | every entry matches the empty term, and no entry matches a term longer than both its name and its country; `FilterIgnoresCase` shows the test ignores case |
| BeneficiaryManagement.Filter | src/components/beneficiary-management.tsx:145-148 | an entry is kept iff it is in the list and its lower-cased name or country contains the lower-cased term |
| BeneficiaryManagement.FilterIsSubsequence | src/components/beneficiary-management.tsx:145-148 | the filtered list is an order-preserving subsequence of the list |
| BeneficiaryManagement.FilterCounts | src/components/beneficiary-management.tsx:145-148 | each matching entry is kept exactly as many times as it occurs in the list, and a non-matching entry never; with `FilterIsSubsequence` this fixes the result of `filter` completely |
| BeneficiaryManagement.FilterEmptyTerm | src/components/beneficiary-management.tsx:145-148 | an empty search keeps the whole list |
| BeneficiaryManagement.FilterIgnoresCase | src/components/beneficiary-management.tsx:145-148 | a term and its lower-cased form select the same entries |
| BeneficiaryManagement.BeneficiaryManager.constructor | src/components/beneficiary-management.tsx:84-97 | the screen starts on the list view, at step 1, with no search and an empty form |
| BeneficiaryManagement.BeneficiaryManager.Filtered | src/components/beneficiary-management.tsx:145-148 | the visible entries are exactly the matching entries of the constant list |
| BeneficiaryManagement.BeneficiaryManager.CurrentTitle | src/components/beneficiary-management.tsx:396 | the subtitle's step title always exists |
| BeneficiaryManagement.BeneficiaryManager.SetSearchTerm | src/components/beneficiary-management.tsx:494 | the search box sets only the term |
| BeneficiaryManagement.BeneficiaryManager.OpenAdd | src/components/beneficiary-management.tsx:479 | Add Beneficiary opens the wizard at the step and form it was left with |
| BeneficiaryManagement.BeneficiaryManager.CloseAdd | src/components/beneficiary-management.tsx:389 | the back arrow returns to the list and keeps the step and form |
| BeneficiaryManagement.BeneficiaryManager.EditForm | src/components/beneficiary-management.tsx:150-256 | an input changes only its form field, on the step that shows it |
| BeneficiaryManagement.BeneficiaryManager.Next | src/components/beneficiary-management.tsx:109-113 | Next moves the step up by one capped at 5; nothing else changes |
| BeneficiaryManagement.BeneficiaryManager.Back | src/components/beneficiary-management.tsx:115-119 | Back moves the step down by one floored at 1; nothing else changes |
| BeneficiaryManagement.BeneficiaryManager.Finish | src/components/beneficiary-management.tsx:121-134 | Finish shows the list at step 1 with all eight fields empty, and the list shows exactly what it showed before |
| CurrencyConversion.InitialData | src/components/currency-conversion.tsx:52-60 | the flow starts with no amount, a positive rate, a converted amount of 0 and no id |
| CurrencyConversion.Converted | src/components/currency-conversion.tsx:78-85 | the converted amount is the larger of 0 and amount·rate − fee |
| CurrencyConversion.Derive | src/components/currency-conversion.tsx:78-85 | the effect makes the converted amount follow a non-empty amount, changes nothing else, and leaves everything alone when the amount is empty |
| CurrencyConversion.ConvertedExample | src/components/currency-conversion.tsx:80-83 | 1000 at 0.85 less 5 converts to 845 |
| CurrencyConversion.ConvertedFloorsAtZero | src/components/currency-conversion.tsx:83 | a fee at or above amount·rate yields 0, never a negative amount |
| CurrencyConversion.Swap | src/components/currency-conversion.tsx:111-118 | a swap exchanges the currencies and replaces the rate by its reciprocal; every other field (amount, markup, fee, converted amount, id) is kept |
| CurrencyConversion.SwapTwice | src/components/currency-conversion.tsx:111-118 | two swaps restore the currencies and, over exact reals, the rate |
| CurrencyConversion.DerivedSwapTwice | src/components/currency-conversion.tsx:111-118 | two swaps, each followed by the effect, restore the whole record |
| CurrencyConversion.TicksIdle | src/components/currency-conversion.tsx:63 | while locked or off `review`, any number of ticks changes nothing |
| CurrencyConversion.TicksCountDown | src/components/currency-conversion.tsx:65-71 | fewer ticks than the remaining time only count the timer down, one per tick |
| CurrencyConversion.TicksExpire | src/components/currency-conversion.tsx:66-69 | after as many ticks as the timer shows, the flow is on `quote` with the timer at 300 |
| CurrencyConversion.QuoteExpiresAfter300 | src/components/currency-conversion.tsx:62-76 | from a fresh quote, the 300th tick reverts to `quote` and a 301st changes nothing |
| CurrencyConversion.TickClock | src/components/currency-conversion.tsx:62-71 | a tick changes nothing unless the flow is on an unlocked review, never changes the lock, and keeps the timer within 1..300 |
| CurrencyConversion.Pad2 | src/components/currency-conversion.tsx:90 | padding seconds below 60 gives two digits worth the same number |
| CurrencyConversion.FormatTime | src/components/currency-conversion.tsx:87-91 | the timer text is the minutes rendered without leading zeros, a colon, then exactly two digits worth the remaining seconds |
| CurrencyConversion.FormatTimeRoundTrip | src/components/currency-conversion.tsx:87-91 | reading the timer text back as minutes·60 + seconds gives the number of seconds |
| CurrencyConversion.FormatTimeExamples | src/components/currency-conversion.tsx:87-91 | 300 shows as `5:00` and 65 as `1:05` |
| CurrencyConversion.CurrencyConverter.constructor | src/components/currency-conversion.tsx:48-60 | the flow starts on `quote`, timer 300, unlocked, with the initial record |
| CurrencyConversion.CurrencyConverter.SetFromCurrency | src/components/currency-conversion.tsx:143 | the From select sets only the source currency |
| CurrencyConversion.CurrencyConverter.SetToCurrency | src/components/currency-conversion.tsx:192 | the To select sets only the target currency |
| CurrencyConversion.CurrencyConverter.SetAmount | src/components/currency-conversion.tsx:164 | a non-empty amount gets the converted amount max(0, amount·rate − fee); an empty one leaves the converted amount unchanged |
| CurrencyConversion.CurrencyConverter.SwapCurrencies | src/components/currency-conversion.tsx:111-118 | the swap button swaps currencies, inverts the rate, and the effect recomputes the converted amount |
| CurrencyConversion.CurrencyConverter.GetQuote | src/components/currency-conversion.tsx:93-98 | Get Quote moves to `review` with timer 300 iff the amount is non-empty and positive; otherwise nothing changes |
| CurrencyConversion.CurrencyConverter.Tick | src/components/currency-conversion.tsx:62-76 | a tick on an unlocked review counts down or, at 1 or below, reverts to `quote` with timer 300; otherwise it is a no-op; data never changes |
| CurrencyConversion.CurrencyConverter.LockRate | src/components/currency-conversion.tsx:106-109 | locking sets the lock and the timer to 300 and leaves the record, fee and converted amount untouched |
| CurrencyConversion.CurrencyConverter.BackToQuote | src/components/currency-conversion.tsx:369 | Back to Quote changes only the step |
| CurrencyConversion.CurrencyConverter.Confirm | src/components/currency-conversion.tsx:100-104 | Confirm sets the id to `CNV` + last 8 timestamp digits and moves to `complete` |
| CurrencyConversion.CurrencyConverter.NewConversion | src/components/currency-conversion.tsx:445-449 | New Conversion returns to `quote` and unlocks the rate; it clears the amount and id and keeps currencies, rate, fee and timer |

The class invariants (`Valid()`) hold from construction and through every
handler:

- **Send money:**
  - a reference id exists exactly on `complete`, and it starts with `PAY`;
  - the fee and the arrival estimate match the selected method;
  - no step has been passed with a field that its Continue guard requires
    left empty.
- **Add beneficiary:** the step stays in 1..5.
- **Currency conversion:**
  - the timer stays in 1..300 and the rate is positive;
  - a non-empty amount's converted amount is up to date and never negative;
  - a reference id exists exactly on `complete`, and it starts with `CNV`.

## Left out

- Rendering is left out: JSX, `motion` animations, styles and icons. So are the
  landing-page sections, the navigation chrome (navbar, sidebar, theme toggle)
  and the other screens (dashboard, analytics, fund collection), which carry
  no wizard state.
- `onNavigate` calls ("Back to Dashboard", "Send Money" from the beneficiary
  screen) leave the component. Screen routing is not part of this model.
- `SendMoney.SendMoneyWizard.EditText`, `CurrencyConversion.CurrencyConverter.SetAmount`:
  an amount is accepted only from the exponent-free subset of what a number
  input holds. Exponent forms such as `1e3`, which a number input accepts and
  `parseFloat` reads as 1000, are not modelled. Neither is binary
  floating-point rounding. Amounts are
  exact reals, so `1 / rate` is exact, and swapping twice restores the rate
  exactly. In IEEE doubles it may not.
- `Text.NatToString`: the rendering is stated for every natural number, but
  JavaScript holds integers exactly only below 2^53 and prints integers from
  10^21 up in exponent form (`1e+21`). The model agrees with `toString` only
  below 2^53. Timestamps and minute counts lie far below that.
- Display formatting is not modelled: `toLocaleString`, `toFixed`, and
  `Math.round` of the progress percentage.
- `Text.Lower`, `Text.LowerIdempotent`: `toLowerCase` is modelled for ASCII letters only, not
  full Unicode case mapping.
- `BeneficiaryManagement.StatusBadge`: the lookup is modelled on the table's own
  three keys. Names inherited from the JavaScript object prototype (such as
  `constructor`) are not modelled. The component only ever passes the three
  statuses.
- The `exchangeRate` field of the send record is declared but never written,
  so it is not modelled. The `flag` and `lastUsed` fields of beneficiaries are
  display only. So are the "Filter by status" select, which has no handler,
  and `getCurrencyInfo` balances.
- Some buttons have no behaviour in the code and are not modelled: OCR upload,
  the file picker, and Download/Share Receipt.
- Timer scheduling is not modelled: the real one-second interval, its
  cancellation, and React's batching of state updates. `Tick` is one firing
  of the interval, and `Derive` runs the converted-amount effect at the end of
  the handler that triggers it.
- `SendMoney.SendMoneyWizard.Back`,
  `CurrencyConversion.CurrencyConverter.LockRate` and the other handlers bound to
  a control: each requires the step, or the condition, under which the
  control is rendered. Handlers that no rendered control can reach in a given
  state are not modelled in that state.
