# med_sahara booking site — a Dafny model

med_sahara is a tour-booking site for Sahara desert experiences. Customers browse them, book them, pay for them and send contact messages. An administrator reviews bookings and messages on a dashboard. This project models the parts of the site that hold logic:

- **The Express back end:**
  - the booking routes and the Mongoose booking schema;
  - the contact routes.
- **The React front end:**
  - the three-step booking wizard;
  - the payment page's formatters;
  - the single-page booking form;
  - the admin dashboard's CSV exports, status actions, badges and state;
  - the listings page's filters and pagination;
  - the image carousel and the star rating of the experience page;
  - the two experience cards;
  - the contact form.

Each source file is one module:

| module | file |
|---|---|
| `BookingModel` | backend/models/Booking.js |
| `BookingRoutes` | backend/routes/bookings.js |
| `ContactRoutes` | backend/routes/contacts.js |
| `BookingPage` | frontend/src/pages/BookingPage.js |
| `PaymentPage` | frontend/src/pages/PaymentPage.js |
| `BookingForm` | frontend/src/components/BookingForm.js |
| `AdminDashboard` | frontend/src/pages/AdminDashboard.js |
| `ListingsPage` | frontend/src/pages/ListingsPage.js |
| `ExperienceDetails` | frontend/src/pages/ExperienceDetailsPage.js |
| `NewExperienceCard` | frontend/src/components/NewExperienceCard.js |
| `ExperienceCard` | frontend/src/components/ExperienceCard.js |
| `ContactForm` | frontend/src/components/ContactForm.js |

Some modules are shared:

- `Wrappers`: the optional value, and JavaScript truthiness.
- `Text`: JavaScript string operations (`replace` with `\s`/`[^0-9]`, `trim`, `join`, `split`, `String(n)`, the e-mail regular expression).
- `Csv`: the quoted-row writer, and a reader for it that follows section 2 of RFC 4180.
- `Ordering`: sorting newest first or by count.
- `Stars`: the star row that three components draw.
- `Catalog`: the experience record the pages receive.
- `Http`: a route's reply.

State the source updates in place is a class with `modifies` clauses:

- the two collections, `BookingStore` and `ContactStore`;
- the state of every stateful component (`BookingWizard`, `PaymentForm`, `BookingFormState`, `Dashboard`, `Listings`, `Carousel`, `LikeButton`, `ContactFormState`).

Each method is proved against a function of the old state and its inputs. The pure logic is functions, with lemmas about them.

Conventions:

- A JavaScript value that may be `undefined`, `null` or `NaN` is an `Option`.
- Dates and times are integers on a millisecond clock, and the clock is always a parameter.
- Money and counts are integers.
- Ratings are integers in tenths of a star.

### How the files disagree with each other

The model keeps each file's behaviour as written. It states these mismatches between files as lemmas and does not fix them:

- **The dashboard's status buttons cannot work.**
  - The buttons send `confirmed`, `cancelled` and `completed` in lower case (frontend/src/pages/AdminDashboard.js:562, 568, 577).
  - The route accepts only the capitalised names and answers 400 (backend/routes/bookings.js:138). See `AdminDashboard.ActionStatusRejected`.
  - The dashboard also compares against lower-case names, while stored statuses are capitalised. So no button is ever shown (`StoredBookingsOfferNoAction`), every badge has the empty style (`StoredStatusesUnstyled`), and every recent-activity entry shows the cancelled icon (`StoredBookingsLookCancelled`).
- **The booking form is always refused.** `BookingForm` sends `listing` but never `tourPackage` (frontend/src/components/BookingForm.js:57-63). The route answers 400 to everything the form sends (backend/routes/bookings.js:108). See `BookingForm.ServerRefusesEveryPayload`.
- **The payment page's subtotal is always 0 after the wizard.** The wizard hands over `experience` as an id string (frontend/src/pages/BookingPage.js:17, 126). The payment page then finds no price, so its subtotal is 0 (frontend/src/pages/PaymentPage.js:23-25). See `PaymentPage.WizardHandoffSubtotalZero`.
- **The statistics ignore the query.** The aggregate has no `$match` stage, so it covers the whole collection whatever the filter or page (backend/routes/bookings.js:34-52). See `BookingRoutes.StatsIgnoreFilter`.
- **The dashboard's first load never shows contacts.**
  - The contacts route replies with a bare array (backend/routes/contacts.js:10).
  - The first load reads `response.data.data || []`, which is always `[]` (frontend/src/pages/AdminDashboard.js:75).
  - Only the refresh after a delete reads `response.data` (frontend/src/pages/AdminDashboard.js:109). See `AdminDashboard.Dashboard.Load`.
- **The search button fetches the old page.** `handleSearch` asks for page 1 and fetches in the same event. The fetch still reads the page shown before (frontend/src/pages/ListingsPage.js:75-82). See `ListingsPage.Listings.HandleSearch`. The effect on `[pagination.current, filters]` (frontend/src/pages/ListingsPage.js:33-35) then fetches page 1 whenever the page was not 1, so a request for page 1 follows the stale one; which reply is shown last depends on the order the replies arrive in, which is not modelled.
- **The max-price filter cannot be set.** The max-price input has no `onChange`, unlike the other four filter inputs (frontend/src/pages/ListingsPage.js:185-192). So no user action calls `ListingsPage.Listings.HandleFilterChange` with `PriceMax`, `priceMax` keeps its initial `''`, and by `ListingsPage.ParamsCarryExactlySetFilters` it is never sent. The model keeps the general handler, which the other inputs share (frontend/src/pages/ListingsPage.js:63-73).

## Model

| member | source | states |
|---|---|---|
| BookingModel.ParseStatus | backend/models/Booking.js:74-78 | a string is accepted as a status exactly when it is the name of one of the four enum values |
| BookingModel.ParseStatusName | backend/models/Booking.js:76 | each of the four status names reads back as that status |
| BookingModel.TrimField | backend/models/Booking.js:7 | a `trim: true` field is stored as the trimmed text of what was given, and is present exactly when given (also lines 12, 17, 32, 36, 57) |
| BookingModel.NewDocument | backend/models/Booking.js:3-87 | a new document has the given id, the name, e-mail, phone and special requests trimmed, the other given fields as they are, status Pending, createdAt now, and no optional extras |
| BookingModel.PreSave | backend/models/Booking.js:90-93 | the pre-save hook sets updatedAt to the current time and changes nothing else |
| BookingRoutes.CreateResult | backend/routes/bookings.js:94-131 | POST /: 400 with nothing stored if a required field is falsy; otherwise 201 exactly when the schema accepts the document, with a stored-valid Pending record stamped created and updated, and 500 exactly when it does not |
| BookingRoutes.CreateIgnoresClientStatus | backend/routes/bookings.js:96-122 | a status or other unread field in the body changes nothing; a new booking is always Pending |
| BookingRoutes.CreateStoresRequestFields | backend/routes/bookings.js:96-125 | a created booking carries exactly the request's fields (text trimmed, special requests included), a listed package and at least one person; no experience id, title, image, start or end date, no total price and no extra options |
| BookingRoutes.CreateTimestampsOrdered | backend/models/Booking.js:79-93 | with a clock that does not run backwards, updatedAt is at least createdAt after creation |
| BookingRoutes.NegativePeopleIsServerError | backend/routes/bookings.js:108-129 | a truthy but negative people count passes the 400 check and fails the schema's `min: 1`, giving 500 |
| Ordering.IndexOfId | backend/routes/bookings.js:80 | `findById`: the first position holding the id, or none exactly when no record has it; the contact routes look contacts up the same way (backend/routes/contacts.js:48) |
| BookingRoutes.GetResult | backend/routes/bookings.js:78-91 | GET /:id returns a record with that id when one exists, 404 otherwise |
| BookingRoutes.UpdateStatusResult | backend/routes/bookings.js:134-157 | missing or unknown status: 400 with the store unchanged; unknown id: 404; a known status on an existing id always succeeds, gives that record that status, changes nothing else and returns the record |
| BookingRoutes.UpdateStatusIdempotent | backend/routes/bookings.js:142-146 | setting the same status twice is the same as setting it once |
| BookingRoutes.UpdateStatusKeepsStored | backend/routes/bookings.js:142-146 | an update keeps every record stored-valid, with the same ids |
| BookingRoutes.DeleteResult | backend/routes/bookings.js:160-174 | unknown id: 404 and no change; otherwise that record is removed and the rest stay in order |
| BookingRoutes.DeleteRemovesOnlyThatId | backend/routes/bookings.js:162-168 | with distinct ids, after a delete the id is gone and every other record remains |
| BookingRoutes.Filter | backend/routes/bookings.js:12-22 | keeps only records matching the status and the inclusive date range, and every record that matches |
| BookingRoutes.FilterConcat | backend/routes/bookings.js:12-22 | filtering distributes over concatenation, so the records keep their order |
| BookingRoutes.FilterOne | backend/routes/bookings.js:12-22 | a single record is kept exactly when it matches |
| BookingRoutes.FilterCounts | backend/routes/bookings.js:12-22 | a matching record occurs in the result as often as in the collection, any other record not at all |
| BookingRoutes.PageOf | backend/routes/bookings.js:27-28 | skip then limit takes a contiguous slice; a limit of 0 means no limit |
| BookingRoutes.TotalPages | backend/routes/bookings.js:65 | `ceil(count / limit)`: enough pages of size limit for count items and no empty page; undefined for limit 0 |
| BookingRoutes.CountStatus | backend/routes/bookings.js:39-50 | a per-status count is at most the collection size |
| BookingRoutes.StatsOf | backend/routes/bookings.js:34-52 | total bookings is the collection size, revenue is the sum of amounts, and each status count counts that status |
| BookingRoutes.StatusCountsSum | backend/routes/bookings.js:38-50 | the four status counts add up to the total |
| BookingRoutes.StatsReply | backend/routes/bookings.js:68 | `stats[0] \|\| {}`: no statistics exactly for an empty collection |
| BookingRoutes.CountPackage | backend/routes/bookings.js:56-58 | a package count is at most the collection size |
| BookingRoutes.PackageKeys | backend/routes/bookings.js:57 | the distinct package values that occur, each once |
| BookingRoutes.GroupsFor | backend/routes/bookings.js:56-59 | one group per key, with that key's count |
| BookingRoutes.PackageStatsTotal | backend/routes/bookings.js:55-61 | package counts add up to the collection size and are in non-increasing order |
| BookingRoutes.PackageStatsCounts | backend/routes/bookings.js:56-58 | each entry's count is the true, non-zero count of its package |
| BookingRoutes.PackageStatsCovers | backend/routes/bookings.js:57 | every booking's package, missing included, has an entry |
| BookingRoutes.PageOfKeepsOrder | backend/routes/bookings.js:26-28 | a page cut from a newest-first list is newest-first and drawn from it |
| BookingRoutes.ListResult | backend/routes/bookings.js:7-75 | GET /: 500 exactly for a negative skip; otherwise 200 whose bookings are exactly the records matching the query, sorted newest first, with `(page - 1) * limit` skipped and `limit` taken (defaults page 1, limit 10); so at most limit matching records from the collection, newest first; currentPage is the page asked for, totalItems the filtered count, totalPages covers it, and the statistics and package counts are collection-wide |
| BookingRoutes.PackageStats | backend/routes/bookings.js:55-61 | one entry per distinct package, largest count first, and no entries exactly for an empty collection |
| BookingRoutes.StatsIgnoreFilter | backend/routes/bookings.js:34-52 | the statistics are the same for every query and cover the whole collection |
| BookingRoutes.ThirdPageOfTwentyFive | backend/routes/bookings.js:9 | 25 bookings, limit 10: page 3 holds exactly the last 5 of the newest-first order, and there are 3 pages (also lines 27-28, 65) |
| BookingRoutes.FilterAll | backend/routes/bookings.js:12-22 | when every record matches, filtering keeps them all in order |
| BookingRoutes.StatsExample | backend/routes/bookings.js:34-52 | two pending, one confirmed and one cancelled booking aggregate to those counts |
| BookingRoutes.BookingStore.constructor | backend/routes/bookings.js:25 | the store starts empty |
| BookingRoutes.AppendFresh | backend/routes/bookings.js:124-125 | saving a valid document under an unused id keeps every record valid and the ids distinct |
| BookingRoutes.BookingStore.Create | backend/routes/bookings.js:94-131 | the reply and new collection are those of CreateResult, with a fresh id |
| BookingRoutes.BookingStore.Get | backend/routes/bookings.js:78-91 | the reply is that of GetResult, and nothing changes |
| BookingRoutes.BookingStore.List | backend/routes/bookings.js:7-75 | the reply is that of ListResult, and nothing changes |
| BookingRoutes.BookingStore.UpdateStatus | backend/routes/bookings.js:134-157 | the reply and new collection are those of UpdateStatusResult |
| BookingRoutes.BookingStore.Delete | backend/routes/bookings.js:160-174 | the reply and new collection are those of DeleteResult |
| ContactRoutes.CreateResult | backend/routes/contacts.js:18-43 | 400 with nothing stored unless name, e-mail and message are truthy; otherwise 201 with the four fields dated now |
| ContactRoutes.PhoneOptional | backend/routes/contacts.js:23 | the phone never decides whether a message is accepted |
| ContactRoutes.ListResult | backend/routes/contacts.js:7-15 | all contacts and only them, newest first |
| ContactRoutes.DeleteResult | backend/routes/contacts.js:46-60 | unknown id: 404 and no change; otherwise that contact is removed and the rest stay in order |
| ContactRoutes.DeleteRemovesOnlyThatId | backend/routes/contacts.js:48-55 | with distinct ids, after a delete the id is gone and every other contact remains |
| ContactRoutes.ContactStore.constructor | backend/routes/contacts.js:9 | the collection starts empty |
| ContactRoutes.ContactStore.Create | backend/routes/contacts.js:18-43 | the reply and new collection are those of CreateResult |
| ContactRoutes.ContactStore.List | backend/routes/contacts.js:7-15 | the reply is that of ListResult, and nothing changes |
| ContactRoutes.ContactStore.Delete | backend/routes/contacts.js:46-60 | the reply and new collection are those of DeleteResult |
| Text.StripSpaces | frontend/src/pages/PaymentPage.js:38 | `replace(/\s+/g, '')` leaves no whitespace and never lengthens; one blank goes and one other character stays |
| Text.StripSpacesConcat | frontend/src/pages/PaymentPage.js:38 | stripping a concatenation strips each part, so every non-blank character stays, in order |
| Text.KeepDigits | frontend/src/pages/PaymentPage.js:38 | `replace(/[^0-9]/gi, '')` leaves only digits; one digit stays and one other character goes |
| Text.KeepDigitsConcat | frontend/src/pages/PaymentPage.js:38 | filtering a concatenation filters each part, so every digit stays, in order |
| Text.DigitsSurviveFilters | frontend/src/pages/PaymentPage.js:38-61 | a string of digits passes both filters unchanged |
| Text.Trim | backend/models/Booking.js:7 | `trim` gives a slice of the input with only whitespace cut from either end and none left at either end |
| Text.TrimFixedExactly | backend/models/Booking.js:7 | trimming leaves a string unchanged exactly when it has no outer whitespace |
| Text.TrimIdempotent | backend/models/Booking.js:7 | trimming twice is trimming once |
| Text.StripJoinedDigits | frontend/src/pages/PaymentPage.js:38-46 | removing the blanks of space-joined digit groups gives their concatenation |
| Text.SplitJoin | frontend/src/pages/AdminDashboard.js:130 | splitting a join on a separator that is in no part gives back the parts |
| Text.IntToString | frontend/src/pages/AdminDashboard.js:130 | a number written by `join` is a non-empty string of digits and minus signs |
| Text.UndoubleDouble | frontend/src/pages/AdminDashboard.js:154 | doubling quotes can be undone, so the message escaping loses nothing |
| Text.DoubledQuotesPaired | frontend/src/pages/AdminDashboard.js:154 | after doubling, every quote stands in a pair |
| Text.EmailLikeAccepts | frontend/src/components/BookingForm.js:26 | an address local@domain.tld with non-empty, blank-free parts passes `/\S+@\S+\.\S+/` |
| Text.EmailLikeNeedsAt | frontend/src/components/BookingForm.js:26 | a string without `@` fails the e-mail test |
| BookingPage.InitialForm | frontend/src/pages/BookingPage.js:16-31 | the form starts with one participant, payment by credit card, the experience id or `''`, and every other field `''` |
| BookingPage.ExpiryMonthInRange | frontend/src/pages/BookingPage.js:102 | an expiry the MM/YY check accepts names a month from 1 to 12 |
| BookingPage.Step1Exactly | frontend/src/pages/BookingPage.js:86-89 | step 1 reports exactly the missing experience, date and time, and nothing else |
| BookingPage.Step2Exactly | frontend/src/pages/BookingPage.js:90-95 | step 2: first name, last name and phone are required; the e-mail is "missing" when empty and "invalid" only when non-empty and malformed |
| BookingPage.Step3Terms | frontend/src/pages/BookingPage.js:106 | step 3 requires the terms for every payment method |
| BookingPage.Step3Card | frontend/src/pages/BookingPage.js:97-105 | with a credit card, each card field is checked against its pattern (13-19 digits or blanks, MM/YY, 3-4 digits) |
| BookingPage.OtherStepsUnchecked | frontend/src/pages/BookingPage.js:86-107 | a step outside 1..3 has no checks |
| BookingPage.ExperiencePrice | frontend/src/pages/BookingPage.js:130-131 | `price \|\| pricePerPerson` of the first experience, or 0 without one |
| BookingPage.TotalPrice | frontend/src/pages/BookingPage.js:132 | price times participants; undefined when the price is |
| BookingPage.DisplayedTotal | frontend/src/pages/BookingPage.js:569 | the shown total is the total price plus the 10 service fee |
| BookingPage.NoExperienceOnlyFee | frontend/src/pages/BookingPage.js:130-132 | with no experience the price is 0 and the shown total is 10 (also line 569) |
| BookingPage.TotalPriceStep | frontend/src/pages/BookingPage.js:132 | one more participant costs one more experience price |
| BookingPage.FewerParticipants | frontend/src/pages/BookingPage.js:248 | the minus button gives `max(1, p - 1)` |
| BookingPage.MoreParticipants | frontend/src/pages/BookingPage.js:265 | the plus button gives exactly `p + 1` |
| BookingPage.MoreThenFewer | frontend/src/pages/BookingPage.js:248-265 | plus then minus restores any count of at least one |
| BookingPage.BookingWizard.constructor | frontend/src/pages/BookingPage.js:15-35 | step 1, the initial form, no errors, terms not accepted |
| BookingPage.BookingWizard.ValidateStep | frontend/src/pages/BookingPage.js:83-111 | the error map is replaced by the current step's errors, and the result is true exactly when it is empty |
| BookingPage.BookingWizard.NextStep | frontend/src/pages/BookingPage.js:113-115 | the step advances exactly when it validates and is below 3; it stays in 1..3 |
| BookingPage.BookingWizard.PrevStep | frontend/src/pages/BookingPage.js:117-119 | the step goes back exactly when above 1; it stays in 1..3 |
| BookingPage.BookingWizard.Submit | frontend/src/pages/BookingPage.js:121-128 | the form is handed to the payment page exactly when the current step validates |
| BookingPage.BookingWizard.DecrementParticipants | frontend/src/pages/BookingPage.js:248 | only the participant count changes, never below 1 |
| BookingPage.BookingWizard.IncrementParticipants | frontend/src/pages/BookingPage.js:265 | only the participant count changes, by one |
| BookingPage.BookingWizard.ToggleTerms | frontend/src/pages/BookingPage.js:547 | the terms checkbox flips acceptance and nothing else |
| BookingPage.SubmitNeedsTerms | frontend/src/pages/BookingPage.js:106 | step 3 never validates without the terms |
| BookingPage.NonCardPassesWithTerms | frontend/src/pages/BookingPage.js:96-107 | without a credit card, step 3 validates exactly on the terms |
| PaymentPage.CardDigits | frontend/src/pages/PaymentPage.js:38-40 | the first run of 4 to 16 digits after filtering, or empty with fewer than 4 digits |
| PaymentPage.Chunks | frontend/src/pages/PaymentPage.js:42-44 | no groups exactly for the empty run |
| PaymentPage.FormatCardNumber | frontend/src/pages/PaymentPage.js:37-50 | the loop's result is the groups of four joined by blanks, or the input when there are none |
| PaymentPage.ChunksShape | frontend/src/pages/PaymentPage.js:42-44 | groups have four characters except possibly the last, and they concatenate back to the run |
| PaymentPage.CardFormattedShape | frontend/src/pages/PaymentPage.js:37-49 | fewer than 4 digits: the input unchanged; otherwise the first min(n, 16) digits in blank-separated groups of four |
| PaymentPage.CardFormattedIdempotent | frontend/src/pages/PaymentPage.js:38-46 | formatting a formatted number changes nothing |
| PaymentPage.FormatExpiry | frontend/src/pages/PaymentPage.js:60-64 | digits only; from two digits on, two digits, a slash and at most two more (length at most 5) |
| PaymentPage.FormatExpiryIdempotent | frontend/src/pages/PaymentPage.js:61-64 | typing over a formatted expiry keeps it |
| PaymentPage.FormatExpiryMeetsWizardCheck | frontend/src/pages/PaymentPage.js:61-64 | four digits with a valid month format into what the wizard's MM/YY check accepts |
| PaymentPage.PriceOf | frontend/src/pages/PaymentPage.js:23 | `experience?.price \|\| experience?.pricePerPerson \|\| 0`: the price when truthy, else the per-person price when truthy, else 0; 0 for an id string |
| PaymentPage.MissingParticipantsChargeOne | frontend/src/pages/PaymentPage.js:24-25 | a missing count or a count of 0 is charged as one participant, like a count of 1 |
| PaymentPage.SubtotalPerPerson | frontend/src/pages/PaymentPage.js:25 | from one participant on, each further participant adds exactly one price to the subtotal |
| PaymentPage.WizardHandoffSubtotalZero | frontend/src/pages/PaymentPage.js:23-25 | what the wizard hands over always gives subtotal 0 |
| PaymentPage.InitialCardDetails | frontend/src/pages/PaymentPage.js:12-18 | the card details have exactly the five fields |
| PaymentPage.PaymentForm.constructor | frontend/src/pages/PaymentPage.js:11-21 | credit card, empty details, not processing, not complete |
| PaymentPage.PaymentForm.HandleInputChange | frontend/src/pages/PaymentPage.js:29-35 | only the named field changes: `checked` for a checkbox, `value` otherwise |
| PaymentPage.PaymentForm.HandleCardNumberChange | frontend/src/pages/PaymentPage.js:52-58 | only the card number changes, to its formatted value |
| PaymentPage.PaymentForm.HandleExpiryDateChange | frontend/src/pages/PaymentPage.js:60-69 | only the expiry changes, to its formatted value |
| PaymentPage.PaymentForm.SelectPaymentMethod | frontend/src/pages/PaymentPage.js:160-172 | only the payment method changes |
| PaymentPage.PaymentForm.Submit | frontend/src/pages/PaymentPage.js:71-73 | processing starts; nothing is checked |
| PaymentPage.PaymentForm.PaymentTimerFires | frontend/src/pages/PaymentPage.js:76-79 | processing ends and the payment is complete; there is no failure outcome |
| BookingForm.PeopleOptions | frontend/src/components/BookingForm.js:200 | the selector offers 1 to 8 |
| BookingForm.FormErrors | frontend/src/components/BookingForm.js:20-31 | errors exactly for empty name, phone and date; the e-mail is "missing" when empty and "invalid" when malformed |
| BookingForm.TotalPriceStep | frontend/src/components/BookingForm.js:36-39 | one person costs the experience price, each further person adds exactly that price, and without a price every count gives `NaN` |
| BookingForm.TotalPriceMonotone | frontend/src/components/BookingForm.js:36-39 | for a price that is not negative, more people never cost less |
| BookingForm.MissingPriceSendsNoAmount | frontend/src/components/BookingForm.js:36-60 | without a `pricePerPerson` the total is `NaN`, and the request then carries no amount |
| BookingForm.PayloadCarriesForm | frontend/src/components/BookingForm.js:57-63 | the payload as the route reads it gives back every field of the form, `listing` as the experience id and `totalAmount` as the total (none for a `NaN` total) |
| BookingForm.AsCreateRequest | frontend/src/components/BookingForm.js:57-63 | the payload as the route reads it, with no `tourPackage` |
| BookingForm.ServerRefusesEveryPayload | frontend/src/components/BookingForm.js:57-63 | whatever is entered, the route answers 400 with nothing stored |
| Http.ErrorText | frontend/src/components/BookingForm.js:74 | the server's message when it is truthy, otherwise the fallback, so never empty; the contact form does the same (frontend/src/components/ContactForm.js:39) |
| BookingForm.BookingFormState.constructor | frontend/src/components/BookingForm.js:5-18 | the initial form, total 0, no error, no errors, not sent; the price may be missing |
| BookingForm.BookingFormState.ValidateForm | frontend/src/components/BookingForm.js:20-34 | the errors become those of FormErrors, and the result is true exactly when there are none |
| BookingForm.BookingFormState.RecomputeTotal | frontend/src/components/BookingForm.js:36-39 | the total becomes price times people, or `NaN` when the price is missing |
| BookingForm.BookingFormState.ChoosePeople | frontend/src/components/BookingForm.js:41-47 | only the number of people changes, and stays in 1..8 (also line 200) |
| BookingForm.BookingFormState.Submit | frontend/src/components/BookingForm.js:49-63 | nothing is sent unless the form validates; then loading starts, the error clears and the payload is sent |
| BookingForm.BookingFormState.Finish | frontend/src/components/BookingForm.js:66-77 | success, or the server's message or fallback; loading ends |
| BookingForm.BookingFormState.BookAnother | frontend/src/components/BookingForm.js:89-98 | success is cleared and the initial form comes back |
| BookingForm.InitialFormInvalid | frontend/src/components/BookingForm.js:5-31 | the initial form reports name, e-mail, phone and date missing |
| Csv.QuotedLine | frontend/src/pages/AdminDashboard.js:156 | a quoted line starts and ends with a quote |
| Csv.EscapeAll | frontend/src/pages/AdminDashboard.js:154 | every cell with its quotes doubled |
| Csv.ParseQuotedLine | frontend/src/pages/AdminDashboard.js:154-156 | a row written with every cell escaped reads back as its cells |
| Csv.NoQuotesUnchanged | frontend/src/pages/AdminDashboard.js:154 | escaping a cell without quotes leaves it as it is |
| Csv.QuotedLineAvoids | frontend/src/pages/AdminDashboard.js:156 | a quoted line holds a newline only through a cell |
| AdminDashboard.OrTextPicksTruthy | frontend/src/pages/AdminDashboard.js:124-127 | `a \|\| b` on strings picks one operand, is truthy exactly when one of them is, and a chain of fallbacks gives the first truthy value |
| AdminDashboard.BookingRow | frontend/src/pages/AdminDashboard.js:121-129 | seven cells with the fallbacks title or package, the date when present (a serialized date is never falsy) or else the start date, amount or price, and the status; Guests is the people count when truthy and empty otherwise (stored bookings have no `guests`) |
| AdminDashboard.BookingLines | frontend/src/pages/AdminDashboard.js:121-130 | one comma-joined line per booking, in order |
| AdminDashboard.BookingsCsvLines | frontend/src/pages/AdminDashboard.js:117-130 | while no cell has a newline, the file is the header line then one line per booking |
| AdminDashboard.BookingsCsvRoundTrip | frontend/src/pages/AdminDashboard.js:117-130 | while no cell has a newline or comma, each line splits back into its booking's cells |
| AdminDashboard.CommaInNameSplitsColumn | frontend/src/pages/AdminDashboard.js:130 | nothing is quoted, so a comma in a name splits the row into the wrong columns |
| AdminDashboard.ContactFields | frontend/src/pages/AdminDashboard.js:149-155 | a contact's five values: name, e-mail, the phone or `''` when it is falsy, the formatted date and the message |
| AdminDashboard.ContactCells | frontend/src/pages/AdminDashboard.js:149-155 | the cells as written: only the message has quotes doubled; none when the message is missing (the export throws) |
| AdminDashboard.ContactLines | frontend/src/pages/AdminDashboard.js:147-156 | one quoted line per contact, or none when some message is missing |
| AdminDashboard.ContactsCsv | frontend/src/pages/AdminDashboard.js:145-156 | the file exists exactly when every contact has a message |
| AdminDashboard.ContactCellsEscaped | frontend/src/pages/AdminDashboard.js:150-154 | for a contact with no quote outside the message, the written cells are the escaped values |
| AdminDashboard.ContactsCsvLines | frontend/src/pages/AdminDashboard.js:145-156 | for such contacts without newlines, the file splits into the header line and one line per contact |
| AdminDashboard.ContactsCsvRoundTrip | frontend/src/pages/AdminDashboard.js:145-156 | for such contacts without newlines, each line reads back as the contact's values |
| AdminDashboard.QuoteInNameUnreadable | frontend/src/pages/AdminDashboard.js:150-156 | a name that is a single quote makes the written line unreadable |
| AdminDashboard.EscapedLines | frontend/src/pages/AdminDashboard.js:149-156 | each contact's line with every value escaped |
| AdminDashboard.ContactsCsvEscaped | frontend/src/pages/AdminDashboard.js:145-156 | the corrected export exists exactly when every contact has a message |
| AdminDashboard.EscapedCsvLines | frontend/src/pages/AdminDashboard.js:145-156 | with every value escaped and no newline in any value, the file splits into the header line and one escaped line per contact |
| AdminDashboard.ContactsCsvEscapedRoundTrip | frontend/src/pages/AdminDashboard.js:145-156 | with every value escaped, each line reads back as its contact's values, quotes included |
| AdminDashboard.ActionsFor | frontend/src/pages/AdminDashboard.js:559-582 | `pending` offers Confirm and Cancel, `confirmed` offers Complete, any other status nothing |
| AdminDashboard.StoredBookingsOfferNoAction | frontend/src/pages/AdminDashboard.js:559-575 | no stored status is lower case, so no booking offers an action |
| AdminDashboard.ActionStatusRejected | frontend/src/pages/AdminDashboard.js:562-577 | every status a button sends is refused with 400 and the store is unchanged |
| AdminDashboard.BadgeOf | frontend/src/pages/AdminDashboard.js:175-187 | the four lower-case statuses have styles, and any other status has the empty style |
| AdminDashboard.StoredStatusesUnstyled | frontend/src/pages/AdminDashboard.js:184 | every stored status gets the empty style |
| AdminDashboard.MarkerOf | frontend/src/pages/AdminDashboard.js:477-485 | the cancelled icon exactly for a status other than confirmed, pending or completed |
| AdminDashboard.StoredBookingsLookCancelled | frontend/src/pages/AdminDashboard.js:477-485 | every stored booking shows the cancelled icon |
| AdminDashboard.Recent | frontend/src/pages/AdminDashboard.js:469 | the first at most five bookings, in order |
| AdminDashboard.OverviewOf | frontend/src/pages/AdminDashboard.js:196-205 | each missing statistic shows as 0 (also lines 399, 421, 443) |
| AdminDashboard.OverviewOfCollection | frontend/src/pages/AdminDashboard.js:69-71 | for any collection the dashboard lists at most ten bookings, shows the collection size as total, and the chart adds up to it |
| AdminDashboard.Dashboard.constructor | frontend/src/pages/AdminDashboard.js:50-54 | no bookings, no contacts, no statistics, loading |
| AdminDashboard.Dashboard.Load | frontend/src/pages/AdminDashboard.js:66-81 | the bookings and statistics of the reply; contacts stay empty because the bare array has no `data` field; the error on failure; loading ends |
| AdminDashboard.Dashboard.UpdateBookingStatus | frontend/src/pages/AdminDashboard.js:91-101 | after a successful update the refreshed bookings and statistics; otherwise the error |
| AdminDashboard.Dashboard.DeleteContact | frontend/src/pages/AdminDashboard.js:103-114 | nothing without confirmation; then the refreshed contacts, or the error |
| ListingsPage.FilterOrderComplete | frontend/src/pages/ListingsPage.js:15-21 | the five filters are all listed |
| ListingsPage.Filters.Set | frontend/src/pages/ListingsPage.js:65-68 | only the named filter changes |
| ListingsPage.SetFilters | frontend/src/pages/ListingsPage.js:45-47 | exactly the filters whose value is not `''`, with their values |
| ListingsPage.RequestParams | frontend/src/pages/ListingsPage.js:42-48 | the page and page size come first |
| ListingsPage.ParamsCarryExactlySetFilters | frontend/src/pages/ListingsPage.js:42-48 | a filter is sent exactly when it is not empty, with its value |
| ListingsPage.ClearedParams | frontend/src/pages/ListingsPage.js:42-48 | with no filters only the page and page size are sent (also lines 91-98) |
| ListingsPage.BodyShapesAgree | frontend/src/pages/ListingsPage.js:51-54 | `ExperiencesOf` stores the same list whether the body is bare or wrapped; `TotalOf` agrees between the two only when the wrapper's total is the list's length and not 0 |
| ListingsPage.WrappedTotalNavigation | frontend/src/pages/ListingsPage.js:51-54 | through `TotalOf`, a wrapped body draws the bar exactly when its total is above 1, with that many buttons; through `ExperiencesOf`, one without `experiences` stores no list |
| ListingsPage.NavigationOf | frontend/src/pages/ListingsPage.js:260-290 | drawn only when total > 1; Previous disabled at page 1, Next at the last page; buttons numbered 1..total |
| ListingsPage.NavigationStaysInRange | frontend/src/pages/ListingsPage.js:264-287 | from a page in range, every enabled button leads to a page in range |
| ListingsPage.NextThenPrevious | frontend/src/pages/ListingsPage.js:264-287 | Next is enabled below the last page, and Previous is enabled on the page it leads to |
| ListingsPage.BareListLengthIsPageCount | frontend/src/pages/ListingsPage.js:54 | a bare list's length is taken as the number of pages (also line 271) |
| ListingsPage.Listings.constructor | frontend/src/pages/ListingsPage.js:12-27 | no filters, page 1, page size 20, total 0, loading |
| ListingsPage.Listings.Fetch | frontend/src/pages/ListingsPage.js:37-61 | sends the request parameters, then stores the list and total or the error; loading ends |
| ListingsPage.Listings.HandleFilterChange | frontend/src/pages/ListingsPage.js:63-73 | only that filter changes, and the page goes back to 1 |
| ListingsPage.Listings.HandleSearch | frontend/src/pages/ListingsPage.js:75-82 | the fetch carries the page shown before, and the page is then 1 |
| ListingsPage.Listings.HandlePageChange | frontend/src/pages/ListingsPage.js:84-89 | the page becomes exactly the given one, and nothing else changes |
| ListingsPage.Listings.ClearFilters | frontend/src/pages/ListingsPage.js:91-103 | every filter is empty and the page is 1 |
| ExperienceDetails.JsRem | frontend/src/pages/ExperienceDetailsPage.js:41-47 | JavaScript's `%`: NaN exactly for divisor 0, the usual remainder for non-negative operands |
| ExperienceDetails.StepsStayInRange | frontend/src/pages/ExperienceDetailsPage.js:39-49 | on a valid index, next gives (i+1) mod n and previous (i-1+n) mod n, both in range and wrapping around |
| ExperienceDetails.NextPrevInverse | frontend/src/pages/ExperienceDetailsPage.js:39-49 | previous undoes next, and next undoes previous |
| ExperienceDetails.NextTimesRotates | frontend/src/pages/ExperienceDetailsPage.js:41 | k presses of next move k places around the ring |
| ExperienceDetails.FullTurnReturns | frontend/src/pages/ExperienceDetailsPage.js:41 | n presses of next come back to the same image |
| ExperienceDetails.EmptyImagesMakeNaN | frontend/src/pages/ExperienceDetailsPage.js:40-47 | an empty image list makes the index NaN, and it stays NaN |
| ExperienceDetails.Carousel.constructor | frontend/src/pages/ExperienceDetailsPage.js:18-22 | no experience, loading, index 0 |
| ExperienceDetails.Carousel.Load | frontend/src/pages/ExperienceDetailsPage.js:25-34 | the experience, or the error; loading ends |
| ExperienceDetails.Carousel.NextImage | frontend/src/pages/ExperienceDetailsPage.js:39-43 | with images the index steps forward; without an experience or images it is unchanged |
| ExperienceDetails.Carousel.PrevImage | frontend/src/pages/ExperienceDetailsPage.js:45-49 | with images the index steps back; without an experience or images it is unchanged |
| ExperienceDetails.Carousel.RenderStars | frontend/src/pages/ExperienceDetailsPage.js:51-72 | nothing without an experience, else its star row |
| Stars.FloorStars | frontend/src/pages/ExperienceDetailsPage.js:55 | `Math.floor` of the rating |
| Stars.CeilStars | frontend/src/pages/ExperienceDetailsPage.js:66 | `Math.ceil` of the rating |
| Stars.Render | frontend/src/pages/ExperienceDetailsPage.js:54-71 | the loops push floor(r) full stars, a half star when fractional, then 5 - ceil(r) empty stars |
| Stars.RowLayout | frontend/src/components/ExperienceCard.js:28-39 | full stars first, then the half star, then the empty stars |
| Stars.RowCounts | frontend/src/components/ExperienceCard.js:25-39 | floor(r) full stars, one half star exactly when fractional, and 5 - ceil(r) empty stars (none if negative) |
| Stars.FiveStarsInRange | frontend/src/pages/ExperienceDetailsPage.js:55-69 | for a rating from 0 to 5 there are exactly five stars |
| Stars.MoreThanFiveAbove | frontend/src/pages/ExperienceDetailsPage.js:58-60 | a rating above 5 draws more than five stars |
| Stars.HalfStarIffFractional | frontend/src/components/ExperienceCard.js:26-34 | a half star exactly for a fractional rating |
| NewExperienceCard.CardOf | frontend/src/components/NewExperienceCard.js:11-13 | the invalid card exactly for a missing or non-object experience |
| NewExperienceCard.FullRecordKept | frontend/src/components/NewExperienceCard.js:15-29 | a record that gives every field shows each field unchanged |
| NewExperienceCard.MissingFieldTakesDefault | frontend/src/components/NewExperienceCard.js:15-29 | dropping one field changes only that field, to its default, and the flat `price` is never read |
| NewExperienceCard.EmptyObjectDefaults | frontend/src/components/NewExperienceCard.js:15-29 | an empty object shows every default |
| NewExperienceCard.RenderStars | frontend/src/components/NewExperienceCard.js:32-55 | no stars for a rating that is not positive, otherwise the usual row |
| NewExperienceCard.GuardedRowShape | frontend/src/components/NewExperienceCard.js:35-54 | the row is empty exactly when the rating is not positive, and has five stars for a rating up to 5 |
| NewExperienceCard.ImageFromCard | frontend/src/components/NewExperienceCard.js:67 | the shown image is one of the card's images, and the placeholder appears only for a card without images |
| NewExperienceCard.LinkId | frontend/src/components/NewExperienceCard.js:140-146 | `_id \|\| '1'` is never empty |
| NewExperienceCard.LinksReadBack | frontend/src/components/NewExperienceCard.js:140-146 | the link id reads back from both links, and two cards share a link exactly when they share the link id |
| NewExperienceCard.MissingIdLinksToOne | frontend/src/components/NewExperienceCard.js:140-146 | a card without an id links to experience 1 |
| NewExperienceCard.LikeButton.constructor | frontend/src/components/NewExperienceCard.js:8 | not liked |
| NewExperienceCard.LikeButton.Toggle | frontend/src/components/NewExperienceCard.js:57-61 | the like state flips |
| ExperienceCard.RenderStars | frontend/src/components/ExperienceCard.js:23-42 | the star row of the rating; a missing rating gives a lone half star |
| ExperienceCard.ImagesAgreeAcrossCards | frontend/src/components/ExperienceCard.js:48 | the two cards show the same image exactly when the experience has at least one image |
| ExperienceCard.MissingIdReadsUndefined | frontend/src/components/ExperienceCard.js:100-106 | a missing id is written `undefined`, so it links exactly like the id `undefined` |
| ExperienceCard.LinksReadBack | frontend/src/components/ExperienceCard.js:100-106 | the id text reads back from both links, and two experiences share a link exactly when they share the id text |
| ExperienceCard.LinksAgreeAcrossCards | frontend/src/components/ExperienceCard.js:100 | the two cards link to the same details page exactly when the experience has a non-empty id |
| ExperienceCard.LinksIdentifyExperience | frontend/src/components/ExperienceCard.js:100-106 | different ids give different links |
| ContactForm.FormData.Set | frontend/src/components/ContactForm.js:16-22 | only the named field changes |
| ContactForm.SentFormStoredAsTyped | frontend/src/components/ContactForm.js:30 | the request made from the form loses nothing, and an accepted form is stored with exactly the four values typed in |
| ContactForm.RouteAcceptsFilledForm | frontend/src/components/ContactForm.js:85 | the route accepts the form exactly when the three required inputs are filled in (also lines 100, 129) |
| ContactForm.EmptyFormRefused | frontend/src/components/ContactForm.js:5-10 | the empty form is refused with 400 |
| ContactForm.ContactFormState.constructor | frontend/src/components/ContactForm.js:5-14 | empty form, not loading, no error, not sent |
| ContactForm.ContactFormState.HandleChange | frontend/src/components/ContactForm.js:16-22 | only the named field changes |
| ContactForm.ContactFormState.StartSubmit | frontend/src/components/ContactForm.js:24-30 | loading starts, the error clears, and the form data is sent |
| ContactForm.ContactFormState.Finish | frontend/src/components/ContactForm.js:31-43 | success clears the four fields; failure keeps them and shows the message or fallback; loading ends |
| ContactForm.ContactFormState.SendAnother | frontend/src/components/ContactForm.js:54 | only the success flag is cleared |

## Left out

- frontend/src/services/api.js is not part of this model.
  - The replies and errors of its axios wrappers are inputs of the component methods.
  - Its response interceptor rejects with `error.response.data`. That makes `err.response?.data?.message` undefined, so a page would always show its fallback text. The model takes the server message as an input instead.
  - The file uses `api` before its declaration (line 6 against line 27).
- Authentication is not part of this model: backend/routes/auth.js, the `auth` middleware on the routes, and the dashboard's login redirect. It rests on bcrypt, JWT and the wall clock.
- backend/seed.js is not part of this model. It is database I/O only.
- backend/models/Contact.js is not part of this model. A contact that passes the handler's own check is taken to save.
- The experiences API that ListingsPage, ExperienceDetailsPage and BookingPage call has no route in the source. Its replies are inputs.
- The mock-experience fallback of the wizard's fetch is not modelled: the fetched experiences are an input.
- Routing tables, configuration and purely presentational components are not modelled because they hold no logic.
- frontend/src/pages/AdminDashboardFix.js is not modelled. It is a fragment that does not stand alone and duplicates the export code.
- Mongo internals:
  - the order of equal `createdAt` or equal counts in a sort (the model is one fixed stable order);
  - ObjectId cast errors on a malformed id (the model's ids are numbers);
  - the parsing of query strings and date strings (the query arrives as numbers and dates);
  - a `limit` that is not a number;
  - `null` against `undefined`.
- Browser effects: locale date formatting (`formatDate` is a parameter of the exports), the Blob download, chart rendering, `alert` in `viewContact`, `window.confirm` (a boolean input) and `setTimeout` delays (a separate method, `PaymentTimerFires`).
- Floating point: the payment page's 10% tax, its total and `toFixed`, and `totalRevenue` formatting. Money is integer whole units.
- BookingPage.BookingWizard: the participant input stores the typed string, which `+` would then concatenate. The model keeps participants numeric.
- BookingForm.BookingFormState.ChoosePeople: requires a value the selector offers. A value typed outside the form is not modelled.
- Stars: ratings are integers in tenths, so ratings finer than a tenth are not modelled.
- NewExperienceCard.CardOf: a non-numeric or `NaN` rating is left out, as is a field that is `null` rather than missing. The rating is a number or missing, and missing takes the default 0.
- ExperienceCard: a missing `experience` prop makes the destructuring throw. The model takes the prop to be an object.
- The status badge's lookup in a plain object would also find prototype keys such as `toString`. The model leaves these out and treats them as unknown statuses.
- The dashboard's monthly bar-chart data is left out: it is presentation.
- React scheduling is left out: effects that re-fetch when state changes, the order of asynchronous replies, and concurrency. A fetch is a method called with its reply.
- The disabled submit buttons, and the browser's own `required` and `type="email"` checks, are not modelled as state. `ContactForm.RouteAcceptsFilledForm` relates them to the route.
- BookingRoutes.BookingStore.UpdateStatus: `updatedAt` is not refreshed, because `findByIdAndUpdate` bypasses the pre-save hook. The model states that the field is unchanged.

## Findings

| source | as written | input that shows it | evidently intended | confidence | as-written member | corrected member |
|---|---|---|---|---|---|---|
| frontend/src/pages/AdminDashboard.js:150-156 | every value is wrapped in quotes, but only the message has its quotes doubled | a contact named `"` (a single double quote), with an empty e-mail, no phone, an empty date and the message `x`, gives a line that an RFC 4180 reader cannot read | every quoted value has its quotes doubled, so each line reads back as its contact | not executed; medium | AdminDashboard.QuoteInNameUnreadable | AdminDashboard.ContactsCsvEscapedRoundTrip |
