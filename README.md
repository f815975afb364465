# Wallet app screens and settings record, modelled in Dafny

This project models five parts of a mobile wallet app:

- **Secure PIN input.** The component keeps a buffer of typed digits. Input reaches it in three ways: the virtual keypad (1 2 3 / 4 5 6 / 7 8 9 / biometry 0 erase), the hidden text field, and the hardware Backspace key on Android. Once the buffer holds the configured number of digits, the PIN is reported, and the buffer is cleared later if the component is told to. Above the keypad (or alone, when the hidden text field is used) the component draws one dot per digit position, with the typed ones active. The number keys carry letter captions.
- **Summary step of the send flow.** Sliding to send runs a chain of checks:
  1. an amount is given;
  2. the source account is activated;
  3. the asset is the sender's own obligation (if so, the flow moves on);
  4. a destination tag is present when the destination requires one;
  5. a tag that is set has been confirmed.

  The step also holds a little state of its own: the confirmed tag, whether the tag input is open and the scroll switch. The fee badge colour is computed from the selected fee in the send flow's context.
- **Result step of the transaction review.** It decides which view a signed transaction leads to: signed, verification failed, success or failed. It also decides what the close button says and which texts the failed view shows.
- **Home screen.** It follows setting changes. It tracks the default account and the visible account count. It toggles discreet mode. It decides where the account button leads and which parts of the screen are shown.
- **Stored settings record ("Core", schema version 2).** This covers its default values and the migration from version 1. The migration walks every stored record and resets the passcode counters, the timestamps, the brute-force purge flag and the theme.

Modules, one per source file, plus the shared `Common`:

- `Common` (common.dfy): `Option`, which stands for JavaScript `undefined`, and string truthiness.
- `SecurePinInput` (pin_input.dfy):
  - the keypad layout and what each key does;
  - `s.split('.')` and the letter captions;
  - the buffer rules as functions;
  - the class `PinInput`, whose handlers update `digits` in place and are proved equal to those functions;
  - lemmas about typing whole PINs.
- `SummaryStep` (summary_step.dfy):
  - the goNext chain as the function `Decide`, with one iff clause per outcome;
  - the class `SummaryStep`, whose `GoNext` method is proved equal to `Decide`;
  - the fee colour.
- `ResultStep` (result_step.dfy): pure classification and text functions.
- `HomeView` (home_view.dfy):
  - the class `HomeView`, holding the screen's state, with one method per handler;
  - `Render` as a function of that state;
  - the account-button action, as written and as corrected.
- `CoreSchema` (core_schema.dfy):
  - the record `Core` as a class;
  - the migration as a loop over a sequence of records;
  - the function `Migrated` that specifies it.

## Model

| member | source | states |
|---|---|---|
| SecurePinInput.KeypadRows | src/components/General/SecurePinInput/SecurePinInput.tsx:264-276 | the keypad rows are the slices of three taken at every multiple of three; together, in order, they are exactly the layout, every row but the last has three keys, and none is empty |
| SecurePinInput.KeypadRowsShape | src/components/General/SecurePinInput/SecurePinInput.tsx:44 | the layout gives four rows of three keys |
| SecurePinInput.KeypadNumbersOnce | src/components/General/SecurePinInput/SecurePinInput.tsx:44 | each number 0 to 9 sits on exactly one key (1-9 in order, 0 between biometry and erase) |
| SecurePinInput.PressAction | src/components/General/SecurePinInput/SecurePinInput.tsx:186-263 | erase sends Backspace, the number key for n sends exactly n, the biometry key calls the biometry callback only when biometrics are supported and is otherwise inert |
| SecurePinInput.KeypadKeysAccepted | src/components/General/SecurePinInput/SecurePinInput.tsx:186-263 | every key press that reaches the digit handler is Backspace or a number 0 to 9 |
| SecurePinInput.Split | src/components/General/SecurePinInput/SecurePinInput.tsx:239 | splitting yields at least one part and no part contains the separator |
| SecurePinInput.JoinSplit | src/components/General/SecurePinInput/SecurePinInput.tsx:239 | joining the parts of a split with the separator gives back the original string |
| SecurePinInput.SplitJoin | src/components/General/SecurePinInput/SecurePinInput.tsx:239 | splitting a join of separator-free parts gives back the parts |
| SecurePinInput.AlphabetGroups | src/components/General/SecurePinInput/SecurePinInput.tsx:229 | the caption alphabet splits into the eight letter groups ABC, DEF, GHI, JKL, MNO, PQRS, TUV, WXYZ |
| SecurePinInput.Alpha | src/components/General/SecurePinInput/SecurePinInput.tsx:228-243 | keys 2 to 9 carry the letter groups in order, every other key an empty caption |
| SecurePinInput.DigitChar | src/components/General/SecurePinInput/SecurePinInput.tsx:116 | appending a keypad number appends the decimal digit character of that number |
| SecurePinInput.Popped | src/components/General/SecurePinInput/SecurePinInput.tsx:109-114 | Backspace drops exactly the last character (nothing on an empty buffer) and keeps a prefix |
| SecurePinInput.PoppedUndoesAppend | src/components/General/SecurePinInput/SecurePinInput.tsx:109-122 | Backspace undoes the digit just appended |
| SecurePinInput.CleanCode | src/components/General/SecurePinInput/SecurePinInput.tsx:133-134 | removing non-digits leaves only digits and never lengthens the text |
| SecurePinInput.CleanCodeFixesDigitStrings | src/components/General/SecurePinInput/SecurePinInput.tsx:133-134 | cleaning leaves a text unchanged if and only if it holds only digits |
| SecurePinInput.CleanCodeAppend | src/components/General/SecurePinInput/SecurePinInput.tsx:133-134 | cleaning a concatenation is the concatenation of the cleaned parts (order is kept) |
| SecurePinInput.CleanCodeCounts | src/components/General/SecurePinInput/SecurePinInput.tsx:133-134 | cleaning keeps every digit as often as it occurs and drops every other character |
| SecurePinInput.DigitInput | src/components/General/SecurePinInput/SecurePinInput.tsx:101-128 | the buffer stays within the length and all digits; Backspace pops and reports nothing; a number is appended while there is room and ignored on a full buffer; the PIN is reported exactly when the buffer has just been filled, and the reported PIN is the new buffer |
| SecurePinInput.EditInput | src/components/General/SecurePinInput/SecurePinInput.tsx:130-152 | text with no digits empties the buffer; cleaned text longer than the length is ignored; otherwise the buffer becomes the cleaned text; the PIN is reported exactly when the cleaned text has the full length |
| SecurePinInput.KeysOf | src/components/General/SecurePinInput/SecurePinInput.tsx:244-253 | a digit string is typed as one number key per character: key i is the number whose digit is character i, and every key is one the handler accepts |
| SecurePinInput.TypingFillsThenReportsOnce | src/components/General/SecurePinInput/SecurePinInput.tsx:101-128 | typing the remaining digits of a PIN onto a partly typed one ends with the whole PIN in the buffer and reports it exactly once |
| SecurePinInput.TypingAPin | src/components/General/SecurePinInput/SecurePinInput.tsx:101-128 | typing a PIN of the configured length on an empty buffer reports that PIN once and leaves it in the buffer |
| SecurePinInput.FullBufferIgnoresNumbers | src/components/General/SecurePinInput/SecurePinInput.tsx:116-127 | on a full buffer any further number keys change nothing and report nothing |
| SecurePinInput.PinInput.constructor | src/components/General/SecurePinInput/SecurePinInput.tsx:60-68 | a new component starts with an empty buffer and the given length and clear-on-finish setting |
| SecurePinInput.PinInput.Default | src/components/General/SecurePinInput/SecurePinInput.tsx:51-58 | by default the PIN has six digits and is not cleared on finish |
| SecurePinInput.PinInput.OnDigitInput | src/components/General/SecurePinInput/SecurePinInput.tsx:101-128 | the new buffer and the report (with the clear-on-finish flag of onFinish) are those of DigitInput; the buffer invariant is kept |
| SecurePinInput.PinInput.HandleEdit | src/components/General/SecurePinInput/SecurePinInput.tsx:130-152 | the new buffer and the report are those of EditInput; the buffer invariant is kept |
| SecurePinInput.PinInput.OnKeyPress | src/components/General/SecurePinInput/SecurePinInput.tsx:154-163 | only Backspace on Android pops the buffer; every other key press leaves it unchanged |
| SecurePinInput.PinInput.ClearInput | src/components/General/SecurePinInput/SecurePinInput.tsx:180-184 | the buffer becomes empty (this is what a long press on the erase key, line 200, and the timer after a report do) |
| SecurePinInput.PinInput.RenderDots | src/components/General/SecurePinInput/SecurePinInput.tsx:278-293 | one dot per PIN position; dot i is active exactly when more than i digits are typed, so the active dots number the typed digits, capped at the length |
| SummaryStep.Decide | src/screens/Send/Steps/Summary/SummaryStep.tsx:177-215 | first-match checks, each outcome stated as an if-and-only-if over the checks before it: a missing or zero amount stops the step; otherwise an unactivated source does; an own obligation proceeds; a missing destination fails; a required tag that is absent or zero is demanded (even when a zero tag is set and unconfirmed); a set tag that differs from the confirmed one asks for confirmation; the flow proceeds exactly when every check passes |
| SummaryStep.ConfirmingTheTagProceeds | src/screens/Send/Steps/Summary/SummaryStep.tsx:164-175 | after the confirmation overlay has been opened, confirming the destination's tag makes the next attempt proceed |
| SummaryStep.ConfirmedTagOnlyAffectsConfirmation | src/screens/Send/Steps/Summary/SummaryStep.tsx:204-211 | the confirmed tag changes the outcome only by opening or not opening the confirmation overlay |
| SummaryStep.FeeColor | src/screens/Send/Steps/Summary/SummaryStep.tsx:244-257 | low is green, medium orange, high red, any other fee level the primary text colour |
| SummaryStep.SummaryStep.constructor | src/screens/Send/Steps/Summary/SummaryStep.tsx:63-72 | no tag confirmed, tag input hidden, scrolling allowed |
| SummaryStep.SummaryStep.GoNext | src/screens/Send/Steps/Summary/SummaryStep.tsx:177-215 | the step's imperative chain of checks returns the outcome of Decide for the confirmed tag, so it proceeds exactly when every check passes |
| SummaryStep.SummaryStep.OnDestinationTagConfirm | src/screens/Send/Steps/Summary/SummaryStep.tsx:164-175 | remembers the destination's tag as confirmed, then reruns goNext, which can no longer ask for confirmation |
| SummaryStep.SummaryStep.GoBack | src/screens/Send/Steps/Summary/SummaryStep.tsx:217-224 | clears the destination, then returns to the previous step, in that order |
| SummaryStep.SummaryStep.ToggleCanScroll | src/screens/Send/Steps/Summary/SummaryStep.tsx:236-242 | flips the scroll switch and changes nothing else |
| ResultStep.Classify | src/screens/Modal/ReviewTransaction/Steps/Result/ResultStep.tsx:231-247 | unsubmitted shows the signed view; a successful result shows verification-failed exactly when verification reported false and success otherwise; any other submitted result shows the failed view |
| ResultStep.UnsubmittedIgnoresResult | src/screens/Modal/ReviewTransaction/Steps/Result/ResultStep.tsx:234-236 | without a submit result the view depends on nothing else |
| ResultStep.CloseLabel | src/screens/Modal/ReviewTransaction/Steps/Result/ResultStep.tsx:38 | the close button reads "next" exactly when the payload has a non-empty return URL |
| ResultStep.FailedDescription | src/screens/Modal/ReviewTransaction/Steps/Result/ResultStep.tsx:102 | the failed view shows the result's message, or "No Description" when there is none |
| ResultStep.CopyText | src/screens/Modal/ReviewTransaction/Steps/Result/ResultStep.tsx:112-117 | the copy button copies the message, or else the code, and nothing when there is no result |
| ResultStep.CopyMatchesDescription | src/screens/Modal/ReviewTransaction/Steps/Result/ResultStep.tsx:101-115 | when the result has a message, the copied text is the description shown |
| ResultStep.SignedCard | src/screens/Modal/ReviewTransaction/Steps/Result/ResultStep.tsx:155-185 | sign-in requests show the application details; otherwise the transaction id is shown exactly when there is a hash, and it is that hash |
| HomeView.SwitchButtonLabel | src/screens/Home/HomeView.tsx:299-310 | the account button shows the count with a badge exactly when more than one account is counted, otherwise "add account" |
| HomeView.SwitchActionAsWritten | src/screens/Home/HomeView.tsx:270-280 | as written, the button leads to the add-account screen exactly when the count is one, otherwise to the switcher with the discreet mode |
| HomeView.AsWrittenLabelMismatch | src/screens/Home/HomeView.tsx:273-274 | with a count of zero the button as written says "add account" but opens the switcher |
| HomeView.SwitchAction | src/screens/Home/HomeView.tsx:270-280 | corrected: the button leads to the add-account screen exactly when its label says "add account" (zero or one account, as the comment at line 273 says) |
| HomeView.SwitchActionAgreesFromOne | src/screens/Home/HomeView.tsx:273-277 | the correction agrees with the code as written for every count of at least one |
| HomeView.HomeView.constructor | src/screens/Home/HomeView.tsx:55-69 | no account and no count yet, neither spendable nor signable, the three settings taken from the stored settings |
| HomeView.HomeView.OnCoreSettingsUpdate | src/screens/Home/HomeView.tsx:120-140 | discreet mode follows the settings only when the change set has that key with a value different from the current one; developer mode and node are refreshed, with the header, exactly when either key is in the change set; the account state is untouched |
| HomeView.HomeView.ToggleDiscreetMode | src/screens/Home/HomeView.tsx:221-227 | flips discreet mode and changes nothing else |
| HomeView.HomeView.UpdateAccountStatus | src/screens/Home/HomeView.tsx:206-219 | for a valid account, signable is the repository's answer and spendable is membership of its address among the spendable accounts; otherwise nothing changes |
| HomeView.HomeView.UpdateDefaultAccount | src/screens/Home/HomeView.tsx:142-160 | a valid update with a changed hidden flag refreshes the count; a valid update of the default account replaces the account and refreshes its status; anything else is ignored |
| HomeView.HomeView.GetDefaultAccount | src/screens/Home/HomeView.tsx:162-171 | the account and count are reloaded, then the status is refreshed when the account is valid |
| HomeView.HomeView.OnSwitchButtonPress | src/screens/Home/HomeView.tsx:270-280 | as the handler is written: the button leads to the add-account screen exactly when the count is one, otherwise to the switcher with the current discreet mode (the corrected rule is HomeView.SwitchAction) |
| HomeView.HomeView.Render | src/screens/Home/HomeView.tsx:299-466 | the empty view exactly when there is no valid account; otherwise the address is masked in discreet mode, send/request buttons exactly when spendable, the inactive-account pane exactly when the balance is zero, the assets list receives discreet mode and spendability, and the header button carries the account-count label |
| CoreSchema.Migrated | src/store/schemas/v2/core.ts:48-54 | a migrated record has zeroed failed-attempt count and timestamps, purge off and the default theme, and agrees with the old record on every other property |
| CoreSchema.MigratedIdempotent | src/store/schemas/v2/core.ts:48-54 | migrating twice is the same as migrating once |
| CoreSchema.MigratedDependsOnlyOnUntouched | src/store/schemas/v2/core.ts:48-54 | the result of the migration depends only on the properties it keeps |
| CoreSchema.Core.constructor | src/store/schemas/v2/core.ts:11-25 | a new record has the schema defaults: not initialized, no passcode, one minute auto-lock, no failure timestamp, zero attempts, no unlock timestamp, no purge, no biometric method, no fallback, the default language, main node and theme, memo alert on |
| CoreSchema.Core.Migration | src/store/schemas/v2/core.ts:42-55 | every record in the collection ends up as the migration of its old values, even when the collection lists a record more than once |

## Left out

- Rendering, styles, icons, haptic feedback, blur and focus of the text field, localisation, alerts, overlays, toasts, the clipboard and navigation are not modelled. Their effects are returned as values (an outcome, a label, an effect list, a target).
- SecurePinInput.PinInput.OnDigitInput: the one-second timer that clears the buffer after a report is represented only by the `clearLater` flag on the report.
- Only Android's Backspace handling is platform-specific; the platform is an `isAndroid` flag.
- SummaryStep.Decide: `parseFloat(amount) === 0` is a boolean given with the context, because floating-point parsing is not modelled. The balance is compared as a real number.
- SummaryStep.Decide: the destination tag is modelled as the string the tag-entry overlays store. `Number(tag) === 0` is modelled as "nothing but zeros after trimming spaces, tabs, carriage returns and newlines". Other JavaScript number syntaxes are not modelled. These include decimal forms such as "0.0", ".0" and "0.", hex, exponents and signs. Neither is the other white space `Number` trims: no-break space, vertical tab, form feed, the line and paragraph separators and the byte-order mark. For such a tag on a destination that requires one, the model asks for confirmation where the app shows the tag-required warning. A tag held as a number is not modelled either; for it, lodash `isEmpty` is always true.
- SummaryStep: showEnterDestinationTag, showMemoAlert, showFeeSelectOverlay, fetchCurrencyRate, the amount-rate text, getSwipeButtonColor and the fee normalisation are not modelled. The fee normalisation calls the ledger parser, which is not part of this model.
- ResultStep.Classify: the verification result is assumed present, as the code reads it without optional chaining. Only its `success` value is modelled.
- HomeView: setNodeChainHeader is modelled only by the `headerRefreshed` result; the chain colours and titles are not modelled. Also not modelled:
  - componentDidAppear, the navigation and Realm listeners, and InteractionManager scheduling;
  - onShowAccountQRPress, pushSendScreen and the share overlay.
- HomeView.HomeView.UpdateDefaultAccount: the repository's answers (visible count, spendable addresses, signability) are parameters. The state updates are applied synchronously, in the order React applies them.
- CoreSchema.Core.Migration: the database's collection is a sequence of records, and the old database handle is unused. The log line is not modelled.
- The ledger parser types, the API constants, the XApp browser styles and the storybook loader are not part of this model.

## Findings

| source | as written | input that shows it | evidently intended | confidence | as-written member | corrected member |
|---|---|---|---|---|---|---|
| src/screens/Home/HomeView.tsx:270-280 | the account button goes to the add-account screen only when the count is exactly 1 | a valid account with a visible-account count of 0 (or not yet loaded): the button is labelled "add account" (line 300) but opens the account switcher | zero or one account leads to the add-account screen, as the comment at line 273 says and as the label promises | low; not executed | HomeView.SwitchActionAsWritten | HomeView.SwitchAction |
