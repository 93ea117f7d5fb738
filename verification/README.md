# Food catalog client: a verified model

This project models the logic of a small food-catalog web client: a page that
lists food items fetched from a remote collection, searches them by name with a
debounced search box, and adds, edits and deletes items through a form modal and
a confirmation modal.

The model covers six parts of the client:

- the record normaliser that turns a loosely shaped API record into a `FoodItem`;
- the form-to-payload mapping and the four gateway calls, with each response given as a value;
- the store slice: its reducer over the thunks' lifecycle actions, and how each thunk shapes its payload;
- the form modal: its initial state, prefilling from the item being edited, the field-by-field validator with its fixed messages, the change handler and the submit gate;
- the page component as one state machine: loading, the trailing-edge debounce of the search box, the modals, and the save and delete workflows that reload the list;
- the list view (panel precedence and "Load more" pagination) and the card view (fallbacks, labels, price display, options menu).

Modules follow the program's structure:

- `Js` states the JavaScript built-ins the client relies on as pure functions: `||` and `??` chains, truthiness, `trim`, one-character `replace`, `reverse`, `Number`/`parseFloat` on decimal text, and the message of a thrown value.
- `Types` mirrors `types.ts`.
- `FoodService`, `FoodsSlice`, `FoodForm`, `App`, `FoodList` and `FoodCard` follow the source file of the same name.
- `RoundTrip` ties the write path to the edit form. An accepted form is sent, the stored record is normalised, and the edit form is prefilled from the result. The lemmas show that this gives back the same form, except that the rating is re-rendered from the number it was read as (`RoundTrip.EditShowsSubmittedForm`). When that text reads back as the same number, saving the edit unchanged is accepted again (`RoundTrip.UnchangedEditIsAccepted`).

Behaviours of the code worth noting:

- **Status.** The normaliser takes the first truthy of `restaurant.status`, `status` and `restaurant_status`, and only then compares it with "Open Now"/"Open". A truthy `restaurant.status` such as "Closed" therefore hides an "Open" in `status`.
- **Price.** The normaliser removes the first '$' wherever it stands, because `replace` with a string pattern works that way. A price such as "12$" therefore loses its '$' too.
- **Image.** `image || avatar` is `undefined` when both are missing. The item's `image` is therefore optional (`Option<string>`). Prefilling copies the missing value into the form. The validator then raises at `food_image.trim()` before setting any error, so such an item cannot be saved until its image input is edited (`FoodForm.ImagelessItemIsNotSubmitted`).
- **Rating.** A raw rating is read with `parseFloat(String(rating)) || 0`. A JSON number reads back as itself. Text is read as its longest leading decimal literal after leading white space.

## Model

| member | source | states |
|---|---|---|
| Js.FirstNonEmpty | services/foodService.ts:29-30 | a logical-or fallback chain yields a truthy operand exactly when one exists, and then it is the first truthy one |
| Js.FirstPresent | services/foodService.ts:40 | a `??` chain yields the first operand that is not undefined/null; an empty string counts as present |
| Js.FirstNonEmptyOfTwo | services/foodService.ts:29 | a two-operand logical-or chain picks the first truthy operand |
| Js.FirstNonEmptyOfThree | services/foodService.ts:30 | a three-operand logical-or chain picks the first truthy operand |
| Js.FirstPresentOfTwo | services/foodService.ts:40 | a two-operand `??` chain picks the left operand when present, else the right |
| Js.Reverse | store/foodsSlice.ts:21 | the reversed list has the same length and holds element `i` at `n-1-i` |
| Js.TrimStart | components/FoodFormModal.tsx:53 | leading trimming removes exactly a prefix of white space and stops at a non-space |
| Js.TrimEnd | components/FoodFormModal.tsx:53 | trailing trimming removes exactly a suffix of white space and stops at a non-space |
| Js.BlankIffAllWhiteSpace | components/FoodFormModal.tsx:53 | `!s.trim()` holds exactly when every character is ECMAScript white space |
| Js.IndexOf | services/foodService.ts:40 | the position found is within the text, and it is a real position exactly when the character occurs there |
| Js.IndexOfIsFirst | services/foodService.ts:40 | no occurrence comes before the position found |
| Js.RemoveFirst | services/foodService.ts:40 | text without the character is unchanged; text that starts with it loses exactly that character |
| Js.RemoveFirstSplit | services/foodService.ts:40 | removal joins the text before and after the first occurrence |
| Js.RemoveFirstCount | services/foodService.ts:40 | removal shortens the text by one and removes one occurrence from its multiset, keeping every other character |
| Js.RemoveFirstLeading | services/foodService.ts:40 | prefixing the character and removing it gives the original text back |
| Js.ToNumber | components/FoodFormModal.tsx:63-69 | `Number` reads blank text as 0, and on any other text it reads as a number it agrees with `parseFloat` |
| Js.ParseFloat | services/foodService.ts:47 | `parseFloat` reads blank text, and text whose first non-space character cannot start a number, as NaN |
| Js.ToNumberAgreesWithParseFloat | services/foodService.ts:47 | on non-blank text that `Number` reads as a number (as the form checks it), `parseFloat` reads the same number (as the normaliser reads a stored rating) |
| Js.NumberOfOneDigit | components/FoodFormModal.tsx:63 | `Number` reads a single digit as its value |
| Js.NumberOfDigitPointDigit | components/FoodFormModal.tsx:63 | `Number` reads digit, point, digit as that decimal |
| Js.NumberTextChars | components/FoodFormModal.tsx:69 | text `Number` accepts consists only of signs, digits, points and white space |
| Js.NumberTextHasNoDollar | components/FoodFormModal.tsx:69 | text `Number` accepts contains no '$' |
| FoodService.Sanitize | services/foodService.ts:19-51 | total; copies id and createdAt; the name is the raw name if non-empty, else "Unnamed Food", so never empty; the image is `image` if non-empty, else `avatar`; a restaurant is attached exactly when one of the three logo keys is truthy, with the first truthy logo, and is named by the first truthy name or "Unnamed Restaurant" |
| FoodService.StatusOf | services/foodService.ts:20-26 | `open === true` always opens; a truthy nested `restaurant.status` that is neither "Open Now" nor "Open" closes the restaurant whatever `status` and `restaurant_status` say |
| FoodService.SanitizeStatus | services/foodService.ts:20-26 | an attached restaurant is open exactly when `open === true`, or the first truthy of the three status keys is "Open Now" or "Open" |
| FoodService.SanitizePrice | services/foodService.ts:40 | the price text is the first present of `Price`, `price`, "0"; without '$' it is kept, with a leading '$' it loses that character, otherwise the text around the first '$' is joined and one '$' fewer remains |
| FoodService.SanitizeRating | services/foodService.ts:47 | a missing rating is 0, a number is kept, and text gives its parsed value or 0 when it does not parse |
| FoodService.RoundTripFields | services/foodService.ts:5-51 | after a write and normalisation: id and createdAt come from the stored record; the name and image are kept when non-empty; the rating is `Number(food_rating)` or 0 for NaN; the price loses its first '$' |
| FoodService.RoundTripRestaurant | services/foodService.ts:5-38 | after a write and normalisation a restaurant is present exactly when the form's logo is non-empty; it has that logo and the form's name, or "Unnamed Restaurant" |
| FoodService.RoundTripStatus | services/foodService.ts:5-26 | after a write and normalisation the restaurant is open exactly when the form's status is "Open Now" or "Open" |
| FoodService.GetFoodsRequest | services/foodService.ts:54-59 | the list request is a GET of the collection, and the name filter is sent exactly when the search term is truthy |
| FoodService.PayloadKeepsFormText | services/foodService.ts:5-17 | two forms give the same payload exactly when they agree on every field but the rating text and their ratings read as the same number |
| FoodService.WriteRequests | services/foodService.ts:67-98 | create and update send the same payload by POST and PUT; update and delete address the item's own path; delete has no body |
| FoodService.Receive | services/foodService.ts:59-64 | a response fulfils exactly when it is ok, with the converted body; a non-ok response rejects with an Error carrying the operation's message; a failed fetch passes its reason on |
| FoodService.SanitizeAll | services/foodService.ts:64 | every record is normalised, in order, one item per record |
| FoodService.GetFoods | services/foodService.ts:54-65 | an ok list response gives one normalised item per record in order; a non-ok response rejects with "Failed to fetch food items"; a failed fetch rejects with its own reason |
| FoodService.CreateFood | services/foodService.ts:67-79 | an ok response gives the normalised created record; a non-ok response rejects with "Failed to create food item"; a failed fetch rejects with its own reason |
| FoodService.UpdateFood | services/foodService.ts:81-93 | an ok response gives the normalised updated record; a non-ok response rejects with "Failed to update food item"; a failed fetch rejects with its own reason |
| FoodService.DeleteFood | services/foodService.ts:95-102 | an ok response fulfils; a non-ok response rejects with "Failed to delete food item"; a failed fetch rejects with its own reason |
| FoodsSlice.Reduce | store/foodsSlice.ts:56-79 | fetch pending sets loading and clears the error; fetch fulfilled stops loading and replaces the items; fetch rejected stops loading and sets the error; a mutation rejection changes only the error; every other action leaves the state as it is |
| FoodsSlice.FirstFetch | store/foodsSlice.ts:12-16 | from the initial state a whole fetch ends not loading, with the reversed list and no error on success, and no items and the message on failure |
| FoodsSlice.FetchFoodsSettled | store/foodsSlice.ts:18-25 | the fetch thunk fulfils with the gateway's list reversed, and rejects with the error's message or "An unknown error occurred" |
| FoodsSlice.CreateLifecycle | store/foodsSlice.ts:27-33 | a whole create leaves the store's items and loading flag as they were (the new item is not added); a failure sets the error to the message or "An unknown error occurred", a success leaves it |
| FoodsSlice.UpdateLifecycle | store/foodsSlice.ts:35-41 | a whole update leaves the items (with the old version of the item) and the loading flag; only a failure changes the error, to the message |
| FoodsSlice.DeleteLifecycle | store/foodsSlice.ts:43-50 | a delete fulfils with exactly the id it was given, yet the store keeps the item and the loading flag; only a failure changes the error, to the message |
| FoodsSlice.FetchLifecycle | store/foodsSlice.ts:58-69 | a whole fetch ends not loading; success shows the reversed list with no error, and failure keeps the items and records the message |
| FoodsSlice.MutationLifecycle | store/foodsSlice.ts:70-78 | a whole create, update or delete never touches the items or the loading flag; success changes nothing and failure sets only the error |
| FoodForm.EmptyAddFormIsRefused | components/FoodFormModal.tsx:14-22 | the add form as it opens is not acceptable: all six text fields report their message and only the preset status passes |
| FoodForm.Prefill | components/FoodFormModal.tsx:34-47 | with no item the form is the initial one; with an item it copies name, image, rating text and price; restaurant name and logo are empty without a restaurant; the status is "Open Now" exactly when the restaurant exists and is open, else "Closed" |
| FoodForm.BlankIffNoText | components/FoodFormModal.tsx:53 | a field is blank after trimming exactly when it has no non-space character |
| FoodForm.RequiredError | components/FoodFormModal.tsx:53 | a required field gets its message exactly when it has no text |
| FoodForm.UrlError | components/FoodFormModal.tsx:54-61 | a URL field with no text gets its "required" message, one that does not parse gets "Image URL is invalid", and any other gets none |
| FoodForm.RatingError | components/FoodFormModal.tsx:63-66 | blank or NaN gives "Food Rating must be a number"; a number outside the closed range [1, 5] gives "Rating is outside 1-5 range"; any other gives none |
| FoodForm.PriceError | components/FoodFormModal.tsx:68-69 | a blank price gives "Price is required", a non-number gives "Price must be a number", and any other gives none |
| FoodForm.Validate | components/FoodFormModal.tsx:51-86 | raises exactly when the image is undefined; otherwise each field's message is set exactly when that field fails its check, and the status message is set exactly when the status is not "Open Now" or "Closed" |
| FoodForm.ValidateAccepts | components/FoodFormModal.tsx:84-85 | validation leaves no error exactly for the forms the acceptance predicate admits, a predicate stated independently of the order of the checks |
| FoodForm.BlankRatingReadsAsZero | components/FoodFormModal.tsx:63-64 | `Number` reads a blank rating as 0, which the range check would refuse, but the blank check comes first and gives "Food Rating must be a number" |
| FoodForm.OneDigitRating | components/FoodFormModal.tsx:66 | a one-digit rating passes exactly for 1 to 5, so both bounds are accepted |
| FoodForm.DigitPointDigitRating | components/FoodFormModal.tsx:66 | a rating written digit, point, digit passes exactly when it lies in [1.0, 5.0] |
| FoodForm.NonNumericRating | components/FoodFormModal.tsx:65 | a rating that starts with anything but a sign, digit, point or white space is not a number |
| FoodForm.FieldsDetermineForm | components/FoodFormModal.tsx:88-91 | forms whose inputs all show the same values are equal |
| FoodForm.HandleChange | components/FoodFormModal.tsx:88-91 | the named input takes the new value and every other input keeps its own |
| FoodForm.HandleSubmit | components/FoodFormModal.tsx:93-98 | the form is handed to `onSubmit` exactly when it is acceptable, and unchanged |
| FoodForm.Step | components/FoodFormModal.tsx:34-98 | the modal submits exactly on Submit of an acceptable form; opening resets form and errors; typing sets exactly the typed field, as the change handler does, and keeps the errors; a submit that raises changes nothing; any other submit shows exactly the validator's messages |
| FoodForm.ImagelessItemIsNotSubmitted | components/FoodFormModal.tsx:34-54 | editing an item without an image and submitting submits nothing and shows no errors |
| App.FetchFoods | App.tsx:26-28 | a load starts loading, clears the error and issues one list call for the term |
| App.Step | App.tsx:26-112 | a search change updates the term at once and restarts the single timer; time passing without a timer changes nothing; only the list load changes the list; only a search change changes the term; the modal handlers and load completion issue no call; the modal handlers change only the modal flags and the selection; only a keystroke or a tick touches the pending timer, so saves, deletes and loads never cancel a pending search; submitting or confirming a delete leaves the loading flag as it was |
| App.StepKeepsInv | App.tsx:26-112 | every event keeps the invariant: a pending timer is for the shown term and fires within 300 ticks, and a job waiting for its reload implies a load in progress |
| App.InitialInv | App.tsx:13-24 | the page starts loading with no items and no error, and meets the invariant |
| App.IdleTicks | App.tsx:40-48 | with no timer pending, any number of ticks changes nothing and sends nothing |
| App.QuietTicks | App.tsx:40-48 | fewer ticks than the timer has left only count it down and send nothing |
| App.TimerFires | App.tsx:44-46 | when its time runs out the timer sends exactly one search for its term and is gone |
| App.SearchIsDebounced | App.tsx:55-58 | after a keystroke nothing is sent for 299 ticks while the box shows the value; at 300 ticks exactly one search for it is sent |
| App.SupersededKeystroke | App.tsx:42-44 | a keystroke followed within the delay by another leaves no trace: the earlier timer is cancelled |
| App.BurstIsLastKeystroke | App.tsx:40-48 | a burst of keystrokes behaves as its last keystroke alone |
| App.TypingBurst | App.tsx:40-58 | keystrokes at 0, 100 and 150 send nothing until 300 ticks after the last, then one search for the last value |
| App.MountFetchesEverything | App.tsx:50-53 | mounting sends one list call with the empty term, which carries no name filter, and shows the spinner state |
| App.FetchOutcome | App.tsx:26-38 | a whole load ends not loading; success shows the list reversed with no error; failure keeps the list and shows the error's message or "An unknown error occurred" |
| App.FetchAgreesWithSlice | App.tsx:26-38 | the page's own loading and the store slice leave the same items, flag and error for the same outcome |
| App.ModalHandlers | App.tsx:60-79 | add clears the selection and opens the form; edit and delete select the item and open their modal; close shuts both and clears the selection; each opens only its own modal, issues no call, and leaves the list, loading flag, error, term, pending timer and jobs as they were |
| App.SubmitCalls | App.tsx:81-89 | submitting calls update with the selected item's id when one is selected and create otherwise, clears the error and starts submitting |
| App.SaveSucceeds | App.tsx:81-97 | a successful save closes both modals, clears the selection and reloads with the term shown at submit; submitting ends when the reload settles |
| App.SaveFails | App.tsx:92-96 | a failed save keeps modals, selection and list, reloads nothing, shows the message or "Failed to save item" and stops submitting |
| App.DeleteNeedsSelection | App.tsx:100 | confirming a delete with nothing selected does nothing |
| App.DeleteSucceeds | App.tsx:99-112 | a confirmed delete calls delete with the selected id; on success it closes the modals and reloads with the term shown at confirmation; deleting ends when the reload settles |
| App.DeleteFails | App.tsx:107-111 | a failed delete keeps the modal and selection, reloads nothing, shows the message or "Failed to delete item" and stops deleting |
| FoodList.Render | components/FoodList.tsx:23-72 | the spinner shows exactly while loading, then the error when truthy, then the empty panel for no items, else the first `min(visibleCount, n)` items in order, with "Load more" exactly when some are hidden |
| FoodList.AfterPressesIsPages | components/FoodList.tsx:14-21 | starting from 8, after `n` presses `8(n+1)` items are visible |
| FoodList.SmallListShowsAll | components/FoodList.tsx:35-62 | a list of at most 8 items is shown whole, in order, without "Load more" |
| FoodList.PressesShowAll | components/FoodList.tsx:62-71 | once the pages cover the list every item is shown and the button is gone; before that the button is there |
| FoodList.LoadMoreExtends | components/FoodList.tsx:19-35 | a press keeps the cards shown as a prefix and shows a page more unless the list runs out |
| FoodCard.StatusLabel | components/FoodCard.tsx:110 | the badge reads "Open Now" exactly for an open restaurant, else "Closed" |
| FoodCard.StatusClasses | components/FoodCard.tsx:33-35 | the badge colours follow the same test as the label |
| FoodCard.LogoAltDistinguishes | components/FoodCard.tsx:65 | every logo alt text ends in " logo"; two restaurants share it exactly when their names are equal, or one is unnamed and the other is called "Restaurant" |
| FoodCard.Render | components/FoodCard.tsx:53-112 | the image falls back to its placeholder when empty; the price shows as "$" + price; logo, restaurant name and badge appear exactly when a restaurant is present, with the logo's placeholder fallback |
| FoodCard.PriceLabelRestoresDollar | components/FoodCard.tsx:56 | for price text that starts with '$', the label after normalisation is that text again |
| FoodCard.PriceLabelAddsDollar | components/FoodCard.tsx:56 | for price text without '$', the label is that text with '$' in front |
| FoodCard.Menu | components/FoodCard.tsx:78-103 | the button toggles the menu; a press outside closes it; Edit and Delete exist only while it is open, each calls its callback with this card's item and closes the menu |
| FoodCard.ToggleTwice | components/FoodCard.tsx:78 | pressing the options button twice leaves the menu as it was |
| FoodCard.OpenThenEdit | components/FoodCard.tsx:78-90 | opening the menu and choosing Edit hands this item to the edit callback and closes the menu |
| RoundTrip.StoredPayload | services/foodService.ts:19-51 | a stored payload with non-empty text fields and a numeric rating normalises to an item with exactly those fields and an attached restaurant |
| RoundTrip.SavedFromFilledForm | services/foodService.ts:5-51 | a form with non-empty fields and numeric rating and price is saved with its text fields and price unchanged, the rating as the number it reads as, and open exactly for "Open Now" or "Open" (any other status text becomes closed) |
| RoundTrip.AcceptedFormIsFilled | components/FoodFormModal.tsx:51-86 | an accepted form has non-empty text fields, a numeric rating and price, and one of the two statuses |
| RoundTrip.SavedKeepsFields | services/foodService.ts:5-51 | an item saved from an accepted form carries the form's text fields and price unchanged and the rating as the number it was read as; it is open exactly when the form said "Open Now" |
| RoundTrip.PrefillWithRestaurant | components/FoodFormModal.tsx:36-44 | the edit form of an item with a named restaurant that has a logo shows that item's fields |
| RoundTrip.EditOfFilledForm | components/FoodFormModal.tsx:34-47 | a form with the fields acceptance guarantees comes back from save and prefill unchanged, except the rating |
| RoundTrip.EditShowsSubmittedForm | components/FoodFormModal.tsx:34-47 | editing an item created from an accepted form shows that form again; only the rating is rewritten from its number |
| RoundTrip.UnchangedEditIsAccepted | components/FoodFormModal.tsx:51-86 | if the submitted rating's number is written as text that reads back as the same number, saving such an edit without changes is accepted again |

## Left out

- HTTP itself is not modelled: `fetch`, JSON encoding and decoding, headers and the base URL. A response is given as a value with its `ok` flag and parsed body, or as a network failure.
- The remote collection is modelled as storing the JSON body as sent, plus the `id` and `createdAt` it assigns. A NaN rating becomes `null`, and an `undefined` image is dropped.
- Js.ToNumber: reads only decimal literals `[+-]?(d+(.d*)?|.d+)` after trimming, plus blank text as 0. Exponents, hexadecimal/octal/binary literals and `Infinity` read as NaN in this model. Values are exact reals, not binary floating point. So a rating typed as "5e0" or "0x5" (5 in JavaScript) is refused as not a number here, "Infinity" gets the not-a-number message instead of the range message, and "5.00000000000000001" (rounded to 5 in JavaScript) is refused as out of range.
- Js.ParseFloat: has the same decimal subset and exact reals. It stops before an exponent, so a stored rating "1e3" reads as 1 here but as 1000 in JavaScript, and a stored "Infinity" reads as NaN and then as 0 through `|| 0`, where JavaScript keeps Infinity.
- FoodService.SanitizeRating: a JSON number is taken to read back through `String` and `parseFloat` as itself.
- URL validity (`new URL(...)` not throwing) is a parameter of the validator. Number-to-text conversion (`String(rating)` in prefill) is a parameter of prefill.
- Timers are modelled as ticks of one time unit. The debounce holds one pending timer that fires on the tick its 300 units run out.
- App.Step: loads that overlap and complete out of order are not modelled. Any completing list load ends a save or delete that waits for its reload. The source does not guard against overlap either.
- The `isOpen` dependency of the prefill effect is folded into the `Reset` event of the form modal.
- Header, Hero, Modal, DeleteConfirmationModal and Spinner are markup and event wiring with no logic of their own. So are the loading texts, titles and button texts of the form modal.
- CSS classes other than the status badge colours are left out, along with SVG icons, the card animation delay, and the rating shown with `toFixed(1)`.
- FoodCard.Menu: a mouse press is modelled as inside or outside the menu; the DOM containment test behind that is left out.
- FoodList.Render: `visibleCount` is an input. The component keeps its count when the list changes, and this model does not track that.
- The thunks are modelled through the actions they dispatch. Redux Toolkit's dispatch machinery is not modelled.
