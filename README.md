# Driver console workflow: a Dafny model

This project models the business logic of a driver console for a logistics
platform. All of that logic lives in three page components; the screen markup
is not modelled.

- **Delivery confirmation** (`delivery_confirmation.dfy`, module `Deliveries`).
  The page holds a list of deliveries, each `pendente` or `confirmado`, plus a
  selected delivery id (or none), the store token and a three-step phase
  (`select`, `confirm`, `token`). Its handlers move through those steps and,
  given a non-blank token, mark the selected delivery confirmed. The handlers
  appear twice:
  - as pure next-state functions on a `PageState` value (`HandleSelectDelivery`,
    `HandleFinalConfirmation`, …);
  - as the methods of the class `ConfirmationPage`, whose fields are the four
    pieces of state. Each method is proved to produce exactly what the matching
    function computes.

  The pending, completed and selected-delivery views are functions on the list.
  An `Action` datatype and the function `Run` stand for any sequence of driver
  actions, so lemmas can state what no sequence of actions can break.
- **Occurrence report form** (`occurrence.dfy`, module `Occurrences`).
  - The form offers a fixed catalogue of eight occurrence types.
  - Its photo list grows by appending `image_{n+1}.jpg`.
  - Validation requires a picked type and a description that is not blank.
  - A submitting flag is raised when submission starts and lowered when the
    deferred completion runs.
- **Login token gate** (`login.dfy`, module `Login`).
  - A blank token is refused on the spot.
  - Any other token raises a loading flag. The deferred half lowers the flag
    and grants access exactly when the token equals the literal `"123456"`.
- **JavaScript helpers** (`text.dfy`, module `Text`).
  - `String.prototype.trim`, with ECMAScript's set of whitespace and line
    terminator characters.
  - The decimal rendering of a number inside a template literal.

Behaviour worth knowing:
- A delivery's status is `pendente` or `confirmado`; the page offers no other,
  and nothing ever sets a delivery back to `pendente`.
- The login decision compares the token as typed with the literal `"123456"`.
  The blank check before it trims the token, the comparison does not, so
  `" 123456"` gets past the blank check and is then refused as invalid.
- `handleFinalConfirmation` tests `if (selectedDelivery)`. That is JavaScript
  truthiness, so a selected id of `0` is treated like no selection (`HandleFinalConfirmation`):
  a pending delivery whose id is 0 stays pending whatever the driver does
  (`IdZeroNeverConfirmed`). The sample data uses ids 1 to 3.
- `handleConfirmDelivery` and `handleSelectDelivery` do not check the current
  step. Only the screen decides which buttons exist, so the model lets every
  handler run from every state.
- `handleSubmit` does not check `isSubmitting`. Only the disabled button
  prevents a second submission.

## Model

| member | source | states |
|---|---|---|
| Text.SkipStart | src/pages/Login.tsx:16 | the left scan of `trim`: the returned index holds a non-whitespace character or is the end, and everything skipped is whitespace |
| Text.SkipEnd | src/pages/Login.tsx:16 | the right scan of `trim`: everything dropped from the end is whitespace, and the new last character is not whitespace |
| Text.Trim | src/pages/Occurrence.tsx:52 | `s.trim()` is empty exactly when `s` is all whitespace; otherwise it neither starts nor ends with whitespace |
| Text.TrimCutsOnlyWhitespace | src/pages/DeliveryConfirmation.tsx:74 | `s` is whitespace, then `s.trim()`, then whitespace: trimming removes nothing else |
| Text.IsBlank | src/pages/DeliveryConfirmation.tsx:74 | the guard `!s.trim()` holds exactly when every character of `s` is whitespace |
| Text.NatToString | src/pages/Occurrence.tsx:43 | rendering a number in a template literal gives digits only, at least one, with no leading zero |
| Text.NatToStringRoundTrip | src/pages/Occurrence.tsx:43 | reading the decimal rendering back gives the number |
| Text.NatToStringInjective | src/pages/Occurrence.tsx:43 | distinct numbers render as distinct strings |
| Deliveries.IdZeroNeverConfirmed | src/pages/DeliveryConfirmation.tsx:83-88 | a pending delivery with id 0 stays pending after any sequence of actions |
| Deliveries.MarkConfirmed | src/pages/DeliveryConfirmation.tsx:84-88 | the `map` keeps length and order; every delivery with the selected id becomes `confirmado` with its other fields kept; every other delivery is unchanged |
| Deliveries.PendingDeliveries | src/pages/DeliveryConfirmation.tsx:117 | holds exactly the deliveries that are `pendente` |
| Deliveries.CompletedDeliveries | src/pages/DeliveryConfirmation.tsx:118 | holds exactly the deliveries that are `confirmado` |
| Deliveries.ViewsPartition | src/pages/DeliveryConfirmation.tsx:117-118 | the two views split the list as multisets, so pending count + confirmed count = number of deliveries |
| Deliveries.FindDelivery | src/pages/DeliveryConfirmation.tsx:119 | `find` returns nothing when nothing is selected or no id matches; otherwise it returns the first delivery with the selected id |
| Deliveries.ConfirmedCountMonotone | src/pages/DeliveryConfirmation.tsx:84-88 | when statuses only move from pending to confirmed, the confirmed count cannot fall and the pending count cannot rise |
| Deliveries.MarkConfirmedGains | src/pages/DeliveryConfirmation.tsx:84-88 | confirming an id held by a pending delivery strictly raises the confirmed count |
| Deliveries.HandleSelectDelivery | src/pages/DeliveryConfirmation.tsx:64-67 | selection becomes the id and the step becomes `confirm`; the deliveries and the token are untouched |
| Deliveries.HandleConfirmDelivery | src/pages/DeliveryConfirmation.tsx:69-71 | the step becomes `token`; nothing else changes |
| Deliveries.HandleStoreTokenChange | src/pages/DeliveryConfirmation.tsx:273 | the typed text becomes the token; nothing else changes |
| Deliveries.HandleCancel | src/pages/DeliveryConfirmation.tsx:102-106 | from any state: no selection, empty token, step `select`; the deliveries are untouched |
| Deliveries.HandleFinalConfirmation | src/pages/DeliveryConfirmation.tsx:73-100 | refused with "token required" exactly when the token is blank; confirms exactly when the token is non-blank and a delivery id other than the falsy 0 is selected; every other case leaves all four pieces of state unchanged; on success the selected delivery is marked and the workflow reset |
| Deliveries.NextConfirmsOnly | src/pages/DeliveryConfirmation.tsx:64-106 | no handler reorders, drops or edits a delivery other than turning pending into confirmed |
| Deliveries.RunConfirmsOnly | src/pages/DeliveryConfirmation.tsx:84-88 | after any sequence of actions, ids, sequence numbers, order and length are kept, confirmed never reverts to pending, and the confirmed count never decreases |
| Deliveries.CancelIdempotent | src/pages/DeliveryConfirmation.tsx:102-106 | cancelling twice gives the same state as cancelling once |
| Deliveries.FinalizeConfirmsShownDelivery | src/pages/DeliveryConfirmation.tsx:83-88 | the delivery the token step shows is the one a successful final confirmation marks confirmed |
| Deliveries.BlankTokenRefused | src/pages/DeliveryConfirmation.tsx:74-81 | tokens `""` and `"   "` are refused and change nothing |
| Deliveries.ConfirmFirstDelivery | src/pages/DeliveryConfirmation.tsx:30-98 | from the initial list, selecting delivery 1, acknowledging, typing "ABC123" and finalising leaves 1 confirmed, 2 pending and the workflow reset |
| Deliveries.ConfirmationPage.constructor | src/pages/DeliveryConfirmation.tsx:30-62 | starts with the three pending deliveries, no selection, an empty token and step `select` |
| Deliveries.ConfirmationPage.SelectDelivery | src/pages/DeliveryConfirmation.tsx:64-67 | the fields change exactly as `HandleSelectDelivery` says |
| Deliveries.ConfirmationPage.ConfirmDelivery | src/pages/DeliveryConfirmation.tsx:69-71 | the fields change exactly as `HandleConfirmDelivery` says |
| Deliveries.ConfirmationPage.SetStoreToken | src/pages/DeliveryConfirmation.tsx:268-275 | the fields change exactly as `HandleStoreTokenChange` says |
| Deliveries.ConfirmationPage.FinalConfirmation | src/pages/DeliveryConfirmation.tsx:73-100 | fields and returned outcome are exactly those of `HandleFinalConfirmation`; the list only gains confirmations |
| Deliveries.ConfirmationPage.Cancel | src/pages/DeliveryConfirmation.tsx:102-106 | the fields change exactly as `HandleCancel` says |
| Occurrences.CatalogueWellFormed | src/pages/Occurrence.tsx:20-29 | eight types with distinct, non-empty ids, so a picked type is never the falsy "" |
| Occurrences.ImageName | src/pages/Occurrence.tsx:43 | the photo name is "image_", then decimal digits with no leading zero that read back as n, then ".jpg" |
| Occurrences.ImageNameInjective | src/pages/Occurrence.tsx:43 | different numbers give different photo names |
| Occurrences.ImagesAfter | src/pages/Occurrence.tsx:36-44 | after n additions to the empty list, photo i is `image_{i+1}.jpg` |
| Occurrences.ImagesDistinct | src/pages/Occurrence.tsx:43-44 | no two photos in the list share a name |
| Occurrences.OccurrenceForm.constructor | src/pages/Occurrence.tsx:33-37 | no type, empty description, no photos, not submitting |
| Occurrences.OccurrenceForm.SelectType | src/pages/Occurrence.tsx:104-107 | the picked type becomes the id of catalogue entry k; nothing else changes; the type stays "" or a catalogue id |
| Occurrences.OccurrenceForm.SetDescription | src/pages/Occurrence.tsx:129-135 | the description becomes the typed text; nothing else changes |
| Occurrences.OccurrenceForm.AddImage | src/pages/Occurrence.tsx:41-44 | exactly one name, `image_{k+1}.jpg`, is appended after the k earlier photos, which keep their names and order; the list stays `image_1.jpg … image_n.jpg` |
| Occurrences.OccurrenceForm.Submit | src/pages/Occurrence.tsx:51-61 | starts sending exactly when a type is picked and the description is not blank; only then is `isSubmitting` raised, otherwise it is left as it was; an enabled button always leads to sending |
| Occurrences.OccurrenceForm.CompleteSubmit | src/pages/Occurrence.tsx:64-65 | the deferred completion lowers `isSubmitting` and changes nothing else |
| Occurrences.CanSubmit | src/pages/Occurrence.tsx:52 | submission passes validation exactly when a type is picked and the description has a non-whitespace character; the photos play no part |
| Occurrences.OccurrenceForm.SubmitEnabled | src/pages/Occurrence.tsx:194 | the button is enabled exactly when not submitting and the same validation `handleSubmit` runs holds |
| Login.Decide | src/pages/Login.tsx:15-43 | the three outcomes: "token required" exactly for a blank token, granted exactly for `"123456"` compared untrimmed, invalid for every other non-blank token |
| Login.PaddedDemoTokenIsInvalid | src/pages/Login.tsx:16-30 | `" 123456"` passes the blank check and is then rejected as invalid |
| Login.LoginPage.constructor | src/pages/Login.tsx:10-11 | empty token, not loading |
| Login.LoginPage.SetToken | src/pages/Login.tsx:73-74 | the token becomes the typed text; the loading flag is kept |
| Login.LoginPage.SubmitToken | src/pages/Login.tsx:15-25 | a blank token is refused and the loading flag is left alone; any other token raises the flag and is captured for validation |
| Login.LoginPage.CompleteValidation | src/pages/Login.tsx:28-43 | lowers the loading flag, then grants exactly when the captured token is `"123456"` |
| Login.PressAndWait | src/pages/Login.tsx:15-43 | one press followed by the timer firing ends with loading off and the decision `Decide` gives for the token |

## Left out

- All rendering: JSX, cards, badges and icons, including `getStatusBadge`. The "Empty state" and the step panels are rendering too.
- Toasts are not shown. Each handler whose toast depends on the state instead returns the outcome that picks it (`FinalOutcome`, `SubmitOutcome`, `Decision`); the fixed toasts of adding a photo and of the submit completion are dropped.
- Navigation (`useNavigate`, the redirect to the dashboard) is not modelled.
- The 2-second `setTimeout` delays are not modelled as time. Each async handler is split into a start method and a completion method (`Submit`/`CompleteSubmit`, `SubmitToken`/`CompleteValidation`). Their interleaving with other events is not modelled.
- The timestamp from `new Date().toLocaleString` and the fixed location text are left out. They depend on the clock and locale, or are fixed text.
- The login input's `maxLength={6}` is left out. It is a browser limit on typing, and the decision does not depend on it. Because of it, a typed token can never be the 7-character `" 123456"`: a typed token of at most 6 characters that trims to `"123456"` is exactly `"123456"`. The untrimmed comparison is the handler's own logic, and typing cannot tell it apart from a trimmed one.
- Delivery ids are mathematical integers. JavaScript numbers can also be fractional or NaN, and those cases are not modelled.
- Strings are sequences of Unicode scalar values, not UTF-16 code units. Every character `trim` removes lies in the Basic Multilingual Plane.
- The dashboard and landing pages are left out. They are static screens with literal data and display mappings.
