# Ember storefront: a verified Dafny model

This project models the state rules of the Ember restaurant storefront, a React single-page app. It covers:

- the cart the app keeps;
- the kitchen display that moves orders through their lifecycle;
- the customer's checkout, order tracking and one-minute cancellation window;
- the menu search;
- login and sign-up against the users table;
- the account page, with its order and reservation history and password change;
- table reservations.

The browser store is the class `Storage.Store`. It has one `seq` field per key (`ember_orders_db`, `ember_users_db`, `ember_bookings_db`) and one for the session key `currentUser`. Reading a key and writing it back whole is plain field access.

Each component with state is a class whose fields are that component's state variables:

- `App.App`
- `Admin.KitchenDisplay`
- `Checkout.CartPanel`
- `Login.LoginModal`
- `Profile.UserProfile`
- `Bookings.BookingForm`

A callback one component receives from another is a call to the other class's method, with the same frame. The list transforms, the status rules and the decision procedures are pure functions, and lemmas relate them.

Inputs from the environment are parameters:

- the clock (`Date.now()`) is `now: int` in milliseconds;
- the random draw (`Math.random()`) is `random: real` with `0 <= random < 1`;
- the static menu (`MENU_ITEMS`) is a `seq<MenuItem>`.

Money is an exact `real`. `toLowerCase` is ASCII-only.

Modules:

- `Types`: the records of types.ts. An optional key is an `Option`; an absent key is `None`.
- `Seqs`: filter, order-preserving subsequence, and the newest-first comparator sort.
- `Digits`: the six-digit order and reservation numbers.
- `Storage`: the browser store.
- `CartLines`: the cart transforms and totals of App.tsx.
- `App`: App.tsx.
- `Admin`: components/AdminDashboard.tsx.
- `Checkout`: components/Cart.tsx.
- `Menu`: components/Menu.tsx.
- `Login`: components/LoginModal.tsx.
- `Profile`: components/UserProfile.tsx.
- `Bookings`: components/Booking.tsx.

Three places use a corrected version of the source, and "## Findings" records each:

- `handleUpdateUser` rewrites the users table. As written it looks entries up by the user's new email. The model looks them up by the session's previous email, and a lemma shows that the two agree whenever the email is kept.
- The kitchen display writes its status change back over a list fetched earlier. The model applies the change to the list currently stored.
- The customer's cancel guard checks only the time. The model also requires the order to still be received, as the cancel screen promises.

Each as-written version is defined as well, with a lemma showing what it gets wrong.

## Model

| member | source | states |
|---|---|---|
| Seqs.Filter | App.tsx:56 | The result keeps exactly the passing elements of the input, no more of them than the input holds, as an order-preserving subsequence |
| Seqs.FindFirst | components/LoginModal.tsx:80 | `find`: the first passing element, or None exactly when no element passes |
| Seqs.SortDesc | components/AdminDashboard.tsx:23 | The comparator sort `b.timestamp - a.timestamp` gives a permutation (equal multisets) of the input with non-increasing keys |
| Seqs.SortMembers | components/AdminDashboard.tsx:21-23 | Sorting neither adds nor loses a member |
| Digits.IdNumber | components/Cart.tsx:124 | `floor(100000 + random * 900000)` lies in [100000, 999999] for every draw in [0, 1) |
| Digits.TaggedIdInjective | components/Cart.tsx:124 | Two numbers give the same tagged id (`ORD-…`, `RES-…`) only if they are equal |
| Digits.DrawnIdLength | components/Booking.tsx:43 | A drawn id is the tag followed by exactly six digits |
| Digits.ParseDecimalString | components/Cart.tsx:124 | Reading back the printed digits of a number gives the number |
| Storage.Store.constructor | components/LoginModal.tsx:54 | A missing key reads as the empty array, and there is no session |
| CartLines.FindIndex | App.tsx:36 | `find` by id: the first line with the id, or None when no line has it |
| Menu.FindIndexIsFind | components/Menu.tsx:59 | The cart search is the library `find` with the id test |
| CartLines.AddToCart | App.tsx:34-41 | An id already in the cart gives the same length; a new id appends `CartItem(item, quantity)` at the end. Every other line is unchanged, and the id is in the result |
| CartLines.AddToExistingLine | App.tsx:36-38 | With unique ids, adding to a present id raises that one line's quantity by the amount; length, order and every other line stay the same |
| CartLines.AddNewLine | App.tsx:40 | Adding an absent id appends exactly one line with the given quantity |
| CartLines.AddPreservesWellFormed | App.tsx:35-41 | Adding keeps ids unique; with a positive amount it keeps the "unique ids, positive quantities" invariant |
| CartLines.UpdateQuantity | App.tsx:44-53 | After the update every line is positive. The result is an ordered subsequence of the shifted cart. Lines of other ids come from the cart, and each positive one survives |
| CartLines.UpdateExistingLine | App.tsx:46-51 | On a well-formed cart the line of the id becomes quantity+delta when positive. Otherwise exactly that line is dropped and the rest keep their order |
| CartLines.UpdateAbsentLine | App.tsx:46-51 | An id not in a well-formed cart leaves the cart unchanged |
| CartLines.UpdatePreservesWellFormed | App.tsx:44-53 | updateQuantity keeps the cart invariant |
| CartLines.RemoveFromCart | App.tsx:55-57 | No line with the id remains. Every line of another id remains, in order |
| CartLines.RemoveExistingLine | App.tsx:55-57 | With unique ids, removing drops exactly the one line found |
| CartLines.RemovePreservesWellFormed | App.tsx:55-57 | removeFromCart keeps the cart invariant |
| CartLines.TotalsSplit | App.tsx:98-99 | totalItems and totalPrice add up over a concatenation |
| CartLines.TotalItems | App.tsx:98 | The `reduce` defining totalItems; it carries no contract of its own, and what it promises is stated by CartLines.TotalsSplit, CartLines.AddToCartTotals, CartLines.UpdateQuantityTotals and CartLines.TotalsNonNegative |
| CartLines.TotalPrice | App.tsx:99 | The `reduce` defining totalPrice; it carries no contract of its own, and what it promises is stated by the same four lemmas |
| CartLines.AddToCartTotals | App.tsx:98-99 | Adding q units raises totalItems by q and totalPrice by q times the line's unit price, so one unit raises totalItems by exactly 1 |
| CartLines.UpdateQuantityTotals | App.tsx:46-51 | updateQuantity moves totalItems by delta, or by minus the line's quantity when the line is dropped |
| CartLines.TotalsNonNegative | App.tsx:98-99 | With positive quantities and non-negative prices, totalItems is at least the number of lines and totalPrice is non-negative |
| App.MergeByNewEmail | App.tsx:76-80 | The rewrite as written keeps the table length. Each entry with the user's email becomes `{ ...entry, ...user }` (App.MergeAccount of it), so a missing password keeps the stored one; every other entry is unchanged |
| App.MergeAccount | App.tsx:77-79 | `{ ...entry, ...user }`: name, email and the authenticated flag come from the user; a password or admin flag the user carries wins, and an absent one keeps the entry's |
| App.MergeAccountIdempotent | App.tsx:77-79 | Spreading the same user over an entry twice gives what spreading it once gives |
| App.NewEmailMatchesNothing | App.tsx:77-79 | As written, an email no entry holds leaves the table unchanged |
| App.MergeByPreviousEmail | App.tsx:75-80 | The corrected rewrite merges into the entries with the session's previous email, each of which becomes `{ ...entry, ...user }` (App.MergeAccount of it) and so takes the new name, email and any new password; all other entries are unchanged |
| App.MergeAgreesWhenEmailKept | App.tsx:76-80 | When the email is not changed, the corrected rewrite equals the one written |
| App.App.constructor | App.tsx:14-22 | Empty cart, no session, every overlay closed, no checkout message |
| App.App.RestoreSession | App.tsx:90-96 | A stored session user becomes the current user; with none stored, the session is untouched |
| App.App.AddToCart | App.tsx:34-42 | The cart becomes addToCart of the old cart; the cart invariant is kept for a positive amount |
| App.App.UpdateQuantity | App.tsx:44-53 | The cart becomes updateQuantity of the old cart; the invariant is kept |
| App.App.RemoveFromCart | App.tsx:55-57 | The cart becomes removeFromCart of the old cart; the invariant is kept |
| App.App.ClearCart | App.tsx:59-61 | The cart is empty |
| App.App.HandleLogin | App.tsx:63-69 | The session user is set and stored; an admin opens the kitchen display, and otherwise the flag keeps its value |
| App.App.HandleLogout | App.tsx:83-88 | No session, the stored session is removed, and both private views are closed |
| App.App.HandleUpdateUser | App.tsx:71-81 | The session user is replaced and stored. The users table becomes the corrected merge keyed by the previous session email |
| App.App.OnLoginRequired | App.tsx:427-431 | The checkout message is set, the cart closes and the login dialog opens |
| App.App.CloseCart | App.tsx:421 | The cart drawer closes |
| App.App.CloseLogin | App.tsx:436-441 | The login dialog closes and the checkout message is cleared |
| App.App.OnLogin | App.tsx:442-449 | Logs the user in and clears the message. The cart reopens exactly when a checkout message was pending, and is otherwise left as it was |
| Admin.FilterOrders | components/AdminDashboard.tsx:44-48 | 'active' keeps exactly received/preparing/delivering, 'completed' exactly delivered/cancelled; the result is an ordered subsequence |
| Admin.FilterAllIsIdentity | components/AdminDashboard.tsx:47 | 'all' returns the list unchanged |
| Admin.Actions | components/AdminDashboard.tsx:151-190 | An order card offers at most two buttons. None keeps the order's status, and none returns an order to received |
| Admin.ActiveCompletedPartition | components/AdminDashboard.tsx:44-47 | Every order is shown by exactly one of 'active' and 'completed'; together they hold the list's multiset and length |
| Admin.ActionsAdvance | components/AdminDashboard.tsx:151-184 | Each offered action either cancels a received order or advances the pipeline rank by exactly one |
| Admin.TerminalIffCompleted | components/AdminDashboard.tsx:151-190 | A status offers no action exactly when it is delivered or cancelled |
| Admin.RunShape | components/AdminDashboard.tsx:151-184 | Along any chain of offered actions the rank rises by one per step, so it never decreases. A cancellation can only end the chain, and a chain has at most 4 − rank statuses |
| Admin.SetStatus | components/AdminDashboard.tsx:36-39 | Every order with the id gets the new status. All other fields and orders, the length and the order are unchanged |
| Admin.SetStatusUnknownId | components/AdminDashboard.tsx:37-39 | An unknown id leaves the list unchanged |
| Admin.SetStatusKeepsOrder | components/AdminDashboard.tsx:36-41 | A status change keeps a newest-first list newest first |
| Admin.StaleWriteBackLosesUpdates | components/AdminDashboard.tsx:36-42 | As written, the write-back of the fetched list drops an order placed since the fetch, and turns a customer's cancellation stored since then back into received |
| Admin.FreshWriteBackKeepsUpdates | components/AdminDashboard.tsx:36-42 | The corrected write-back keeps the length and every stored order of another id exactly as it was |
| Admin.KitchenDisplay.constructor | components/AdminDashboard.tsx:16-17 | No orders loaded; the filter starts on 'active' |
| Admin.KitchenDisplay.FetchOrders | components/AdminDashboard.tsx:20-24 | The shown list is a permutation of the stored orders, newest first |
| Admin.KitchenDisplay.UpdateOrderStatus | components/AdminDashboard.tsx:36-42 | The shown list takes the status change. The corrected write-back (see "## Findings") applies it to the currently stored list, so every stored order of another id is kept. Newest-first order of the shown list is kept |
| Admin.KitchenDisplay.SetFilter | components/AdminDashboard.tsx:76-89 | The selected filter is set |
| Checkout.FinalTotalBounds | components/Cart.tsx:43-46 | With positive quantities, non-negative prices and an offered tip, subtotal + 5 ≤ final total ≤ 1.2·subtotal + 5 |
| Checkout.TipAmount | components/Cart.tsx:45 | No tip adds nothing; an offered tip on a non-negative subtotal adds between 0 and a fifth of it |
| Checkout.FinalTotal | components/Cart.tsx:43-46 | An empty cart costs exactly the delivery fee; with no tip the total is the subtotal plus the fee |
| Checkout.StepFor | components/Cart.tsx:75-81 | A changed status sets the step: preparing→1, delivering→2, delivered→3 (the kitchen rank), cancelled→0; received keeps the step |
| Checkout.TimeLeft | components/Cart.tsx:84-90 | The countdown is never negative, at most 60 once the order's timestamp has passed, and 0 unless the order is received. While received it is positive exactly when fewer than 60000 ms have elapsed |
| Checkout.CanCancel | components/Cart.tsx:155-160 | The guard as written checks only time: it passes exactly when at most 60000 ms have elapsed, so exactly 60 s still cancels |
| Checkout.MayCancel | components/Cart.tsx:155-160 | The corrected guard, defined as received and within 60000 ms; what it promises is stated by Checkout.CountdownAllowsCancel (a running countdown of a received order allows the cancel) and Checkout.CancelSparesStartedOrder (an order in preparation is never cancelled) |
| Checkout.CancelAsWrittenHitsStartedOrder | components/Cart.tsx:150-166 | As written, a preparing order within the minute passes the guard, and the write-back marks it cancelled |
| Checkout.CancelSparesStartedOrder | components/Cart.tsx:150-166 | The corrected guard never passes for an order that has left received |
| Checkout.CountdownAllowsCancel | components/Cart.tsx:84-90 | Whenever the countdown shows time left (when the cancel button is shown), the corrected cancel guard passes |
| Checkout.FindOrder | components/Cart.tsx:71 | `find` by id: the first order with the id, or None when absent |
| Checkout.NewOrder | components/Cart.tsx:126-144 | A stored order always has a customer name, is linked to an email exactly when a user is logged in, and has an id tagged "ORD-". It shows the full 60 s and can be cancelled at once |
| Checkout.NewOrderIdsDistinct | components/Cart.tsx:124 | Orders drawn with different numbers have different ids |
| Checkout.CartPanel.constructor | components/Cart.tsx:25-40 | Idle, no order id, step 0, timer 60, empty form paying by card, tip 0 |
| Checkout.CartPanel.PrefillName | components/Cart.tsx:61-65 | A logged-in user's name replaces the form's name; nothing else changes |
| Checkout.CartPanel.ProceedToCheckout | components/Cart.tsx:106-112 | With a user, the phase becomes checkout and the app is untouched. Without one, the phase stays, the checkout message is set, the cart closes and the login dialog opens |
| Checkout.CartPanel.BackToCart | components/Cart.tsx:114-116 | The phase returns to idle |
| Checkout.CartPanel.SelectTip | components/Cart.tsx:352-356 | The tip becomes the pressed option, always one of 0, 10, 15 and 20 |
| Checkout.CartPanel.FinalizeOrder | components/Cart.tsx:118-148 | Appends exactly one order and keeps the earlier ones. The order is received at `now`, holds the cart snapshot at the final total, and is named after the form, or 'Guest' when the name is empty. Its id is "ORD-" plus six digits. Tracking starts at step 0 with 60 s, and the cart is cleared |
| Checkout.CartPanel.CheckUpdates | components/Cart.tsx:69-92 | An order absent from the store changes nothing. Otherwise the phase mirrors the stored status, the step follows `StepFor` only when the status changed, and the countdown is `TimeLeft` |
| Checkout.CartPanel.PollStep | components/Cart.tsx:69-99 | Polling does nothing when the panel was idle or at checkout before the tick, or without an order id. While tracking an order with an id, a tick does what checkUpdates does: nothing for an order absent from the store, otherwise the stored status is mirrored, the step follows `StepFor` on a change, and the countdown is `TimeLeft` |
| Checkout.CartPanel.CancelOrder | components/Cart.tsx:150-171 | An absent order changes nothing. An order that is late or already started (corrected guard, see "## Findings") only zeroes the countdown. Otherwise only that order becomes cancelled in the store, and the phase becomes cancelled with step 0 |
| Checkout.CartPanel.ResetOrder | components/Cart.tsx:173-188 | Idle, empty id, step 0, timer 60 and tip 0. The form keeps only the name, with payment back to card, and the cart closes |
| Menu.Includes | components/Menu.tsx:40-41 | `includes` holds exactly when the needle occurs at some position of the haystack |
| Menu.FilteredItems | components/Menu.tsx:31-48 | An ordered subsequence of the menu. A chosen category is respected, and with a query every kept item's lower-cased name or description contains the lower-cased query. Every item meeting both conditions is kept |
| Menu.NoFilterShowsAll | components/Menu.tsx:33-47 | With 'all' and an empty query every item is kept |
| Menu.GetItemQuantity | components/Menu.tsx:58-62 | An item not in the cart shows 0. On a positive cart the quantity is never negative, and it is positive exactly when the item is in the cart |
| Menu.IncreaseAddsOne | components/Menu.tsx:58-66 | After addToCart(item, 1) the quantity shown for the item is one more than before |
| Menu.DecreaseRemovesOne | components/Menu.tsx:58-71 | On a well-formed cart, updateQuantity(id, −1) lowers the shown quantity by one, never below zero |
| Menu.HandleIncrease | components/Menu.tsx:64-66 | The app's cart becomes addToCart(item, 1); the shown quantity rises by one and the cart invariant is kept |
| Menu.HandleDecrease | components/Menu.tsx:69-71 | The app's cart becomes updateQuantity(id, −1); on a valid cart the shown quantity drops by one (not below 0) and the invariant is kept |
| Login.FindCredentials | components/LoginModal.tsx:65 | `find` with the email-and-password test: the first entry with both, or None when there is none |
| Login.FindEmail | components/LoginModal.tsx:80 | `find` with the email test: the first entry with the email, or None when there is none |
| Login.Submit | components/LoginModal.tsx:42-61 | The admin credentials log in the admin, before anything else and only them. The reset-sent outcome happens exactly in forgot mode with other credentials. Only sign-up mode appends |
| Login.LoginSucceedsIff | components/LoginModal.tsx:63-77 | In login mode, login succeeds iff some entry holds both the email and the password. The user is then a non-admin with the email and the name of the first entry holding both; otherwise the outcome is the invalid-credentials error |
| Login.SignUpTakenEmail | components/LoginModal.tsx:80-83 | Sign-up with a taken email is refused and leaves the table unchanged |
| Login.SignUpNewEmail | components/LoginModal.tsx:84-101 | Sign-up with a new email appends exactly {name, email, password}, keeps emails unique, and logs the new non-admin user in |
| Login.SubmitPreservesUniqueEmails | components/LoginModal.tsx:78-101 | No submission introduces a second entry for an email |
| Login.MergeKeepsUniqueEmails | App.tsx:76-80 | A profile edit that keeps the session's email, or moves to an email no entry holds, leaves the table's emails unique under the corrected rewrite |
| Login.MergeIntoTakenEmailDuplicates | App.tsx:76-80 | A profile edit that moves to an email another entry already holds leaves two entries with that email: neither the source nor the corrected rewrite refuses a taken email |
| Login.LoginModal.constructor | components/LoginModal.tsx:19-29 | Login mode, not forgot, no reset sent, empty form, not loading, no error |
| Login.LoginModal.ResetAndClose | components/LoginModal.tsx:111-117 | Form, error and both flags are cleared, and the dialog closes through the app |
| Login.LoginModal.HandleSubmit | components/LoginModal.tsx:33-109 | The table becomes the decision's table, and loading ends false. A login sets and stores the session and clears and closes the dialog. It clears the checkout message, opens the kitchen display for the admin, and reopens the cart exactly when a message was pending. A reset link sets the flag and leaves the app and the stored session untouched. A rejection sets the error and leaves the form, both dialog flags, the app and the stored session untouched |
| Login.LoginModal.HandleSwitchMode | components/LoginModal.tsx:119-125 | Toggles login/sign-up and clears the error, both flags and every field |
| Login.LoginModal.HandleForgotPasswordClick | components/LoginModal.tsx:127-131 | Opens the reset screen with no error and no reset sent |
| Login.LoginModal.HandleBackToLogin | components/LoginModal.tsx:133-137 | Leaves the reset screen with no error and no reset sent |
| Profile.OrderHistoryExact | components/UserProfile.tsx:43-45 | The history holds every stored order of the user's email, as many times as stored, and nothing else. It is sorted newest first |
| Profile.BookingHistoryExact | components/UserProfile.tsx:48-50 | The same for reservations |
| Profile.OrderHistory | components/UserProfile.tsx:43-45 | The order history is never longer than the stored orders and is sorted newest first |
| Profile.BookingHistory | components/UserProfile.tsx:48-50 | The reservation history is never longer than the stored reservations and is sorted newest first |
| Profile.GuestOrdersHidden | components/UserProfile.tsx:44 | An order placed without a user appears in no history |
| Profile.CheckPasswordChange | components/UserProfile.tsx:64-85 | The checks run in order. "Incorrect current password." exactly when the first entry with the email does not store the entered password. Past that check, a mismatch gives "New passwords do not match.", and a matching password whose `length` (UTF-16 units, Profile.Utf16Length) is under 6 gives "Password must be at least 6 characters.". An accepted password matches the confirmation and has a `length` of at least 6 |
| Profile.PasswordChangeIff | components/UserProfile.tsx:69-85 | With unique emails, a change is accepted iff the current password is stored for the email, the new one matches the confirmation, and its UTF-16 `length` is at least 6 |
| Profile.Utf16Length | components/UserProfile.tsx:82 | A string's `length` counts UTF-16 units: between its number of characters and twice that, equal to it when every character is in the Basic Multilingual Plane, and twice it when none is |
| Profile.AstralPasswordLongEnough | components/UserProfile.tsx:82 | Three characters outside the Basic Multilingual Plane form a password of `length` 6, so the change is accepted |
| Profile.PasswordChangeThenLogin | components/UserProfile.tsx:87-91 | After an accepted change is merged into the table, login with the new password succeeds. With unique emails, the different old password is refused |
| Profile.EditedAccountCanLogIn | App.tsx:75-80 | Under the corrected merge, an edited account logs in with its new email and the password its entry now holds |
| Profile.EmailChangeLostAsWritten | App.tsx:76-80 | Under the merge as written, a new email matches no entry: the table is unchanged and login with the new email is refused for every password |
| Profile.UserProfile.constructor | components/UserProfile.tsx:21-38 | Empty histories, not editing, and the edit form holding the user's name and email. The password form is empty and there is no message |
| Profile.UserProfile.LoadHistory | components/UserProfile.tsx:41-52 | Both histories are loaded: only the user's records, newest first |
| Profile.UserProfile.HandleUpdateProfile | components/UserProfile.tsx:54-62 | Only name and email are replaced; password and admin flag are kept. The app stores the result, and editing ends |
| Profile.UserProfile.HandleChangePassword | components/UserProfile.tsx:64-95 | A rejection shows its message and changes nothing else. An acceptance stores the user with only the password replaced, shows the success message and clears the form |
| Profile.UserProfile.FinishPasswordChange | components/UserProfile.tsx:96-99 | The password form closes and the message clears |
| Bookings.Prefill | components/Booking.tsx:29-37 | With a user, the name and email come from the user; with none, the form is unchanged. No other field changes |
| Bookings.PrefillIdempotent | components/Booking.tsx:29-37 | Re-running the prefill for the same user changes nothing more |
| Bookings.NewBooking | components/Booking.tsx:42-53 | A stored reservation is confirmed, has an id tagged "RES-", and counts as a user's exactly when that user is signed in |
| Bookings.NewBookingInHistory | components/Booking.tsx:47-53 | A stored reservation appears in a user's history exactly when it was made while that user was logged in |
| Bookings.ReservationIdsDistinct | components/Booking.tsx:43 | Reservations drawn with different numbers have different ids |
| Bookings.BookingForm.constructor | components/Booking.tsx:16-27 | Empty form with 2 guests, not submitted, no id, not submitting |
| Bookings.BookingForm.PrefillFromSession | components/Booking.tsx:29-37 | The form becomes the prefill of the old form |
| Bookings.BookingForm.HandleSubmit | components/Booking.tsx:39-57 | Appends exactly one confirmed booking after the existing ones. It holds the unchanged form, the id "RES-" plus six digits, the user's email (if any) and `now` |
| Bookings.BookingForm.FinishSubmit | components/Booking.tsx:58-61 | Submitting ends and the confirmation shows |
| Bookings.BookingForm.ResetForm | components/Booking.tsx:69-79 | Not submitted, no id. Date, time and special requests are cleared and guests is 2, while name, email and phone are kept |

## Left out

- The module-level `fetch` of the menu endpoint in every component: network I/O whose result is only logged.
- services/geminiService.ts and components/AIChat.tsx (the chat assistant) are not part of this model: they wrap an external generative-AI service.
- components/Hero.tsx is not part of this model: it is scroll and parallax presentation only.
- JSX rendering, CSS, body-scroll locking, `scrollToSection`, the mobile menu, the navbar scroll effect, `handleImageError` and `handlePrint`: presentation and DOM access.
- JSON parsing and serialisation: each store key is a typed `seq`, so malformed stored JSON (and the "unexpected error" branch of the login handler that catches it) is not represented.
- Timers and delays (`setTimeout`, `setInterval`) are not modelled as such. The delayed callbacks of the login submit and of placing an order run inside their handler's method (Login.LoginModal.HandleSubmit, Checkout.CartPanel.FinalizeOrder). The reservation and password-change callbacks are separate methods (Bookings.BookingForm.FinishSubmit, Profile.UserProfile.FinishPasswordChange). An interval is one call per tick (Checkout.CartPanel.PollStep, Admin.KitchenDisplay.FetchOrders).
- Concurrent tabs over one `localStorage` are modelled as interleaved method calls on one `Storage.Store`: each method reads the store at its call and writes it back. The two interleavings in "## Findings" below (the kitchen write-back and the cancel guard) are of this kind, a customer tab and an admin tab, since the app shows an admin only the kitchen display (App.tsx:125-127). Only those two interleavings are stated as lemmas.
- The kitchen display's `isAutoRefreshing` flag (components/AdminDashboard.tsx:18) is never set to false, so auto-refresh is always on: Admin.KitchenDisplay.FetchOrders is one tick of that always-running poll. The profile's tab and history selectors and the cart's summary toggle are view switches with no further rule.
- Field-by-field form edits (`handleChange` and the `onChange` handlers): the forms are record fields set whole. This includes the booking select that writes `guests` as a string.
- `toFixed`, `toLocaleDateString` / `toLocaleTimeString`, `formatDate` and `formatTime`: locale-dependent display.
- `toLowerCase` is ASCII-only (`Menu.LowerChar`); full Unicode case mapping is not modelled.
- Prices are exact `real` numbers, not IEEE floats, so rounding in totals is not modelled.
- Seqs.SortDesc: its contract promises a permutation in non-increasing timestamp order and says nothing about the relative order of equal timestamps. Its body is an insertion sort that keeps that order, as `Array.prototype.sort` does since ECMAScript 2019, but no lemma states this.
- The login `loading` flag and the cart `isSubmitting` flag span a delay that the model folds into one call, so they are set and cleared within it. The reservation `isSubmitting` flag is set by Bookings.BookingForm.HandleSubmit and cleared by Bookings.BookingForm.FinishSubmit.
- Login.LoginModal.HandleSubmit: the closing `finally` step is reduced to "loading ends false", which is what every path the model represents reaches. In forgot-password mode the source's `finally` step skips clearing `loading`, so its catch path leaves `loading` true (components/LoginModal.tsx:103-106); that path needs malformed stored JSON, which the model does not represent.
- App.MergeByPreviousEmail: does not refuse a new email that another entry already holds, as the source does not; Login.MergeKeepsUniqueEmails proves uniqueness only when the email is unchanged or free, and Login.MergeIntoTakenEmailDuplicates shows the taken case.

## Findings

| source | as written | input that shows it | evidently intended | confidence | as-written member | corrected member |
|---|---|---|---|---|---|---|
| App.tsx:76-80 | `handleUpdateUser` merges the updated user into the users-table entries whose email equals the updated user's email, which after an email change is the new one | A user stored as `ada@x` with password `secret1` edits their email to `ada@y`. No entry has `ada@y`, so the table is unchanged, and logging in as `ada@y` / `secret1` is refused | Merge into the entry of the session's previous email, so "login persists with new details" as the source comment says. A new email that another entry already holds is not refused by the corrected rewrite either; it then leaves two entries with that email (Login.MergeIntoTakenEmailDuplicates), and uniqueness is kept exactly when the email is unchanged or free (Login.MergeKeepsUniqueEmails) | not executed | App.MergeByNewEmail (with Profile.EmailChangeLostAsWritten) | App.MergeByPreviousEmail (with Profile.EditedAccountCanLogIn; used by App.App.HandleUpdateUser) |
| components/AdminDashboard.tsx:36-42 | `updateOrderStatus` stores the list the display fetched up to 3 s earlier, with the status changed | The display fetches order A (received). The customer places order B and cancels A in that window. The chef then marks another order as preparing. The store ends without B, and A is received again | Apply the change to the list currently stored, so no order or customer change is lost | medium; not executed | Admin.StaleWriteBackLosesUpdates | Admin.FreshWriteBackKeepsUpdates (used by Admin.KitchenDisplay.UpdateOrderStatus) |
| components/Cart.tsx:150-166 | `handleCancelOrder` checks only that at most 60 s have elapsed, while the screen says "Orders cannot be cancelled once preparation begins." (components/Cart.tsx:509) | The kitchen marks a 30-s-old order as preparing. The customer presses Cancel before the next 1-s poll hides the button. The stored order becomes cancelled | Cancel only a received order within the minute | high; not executed | Checkout.CanCancel (with Checkout.CancelAsWrittenHitsStartedOrder) | Checkout.MayCancel (with Checkout.CancelSparesStartedOrder; used by Checkout.CartPanel.CancelOrder) |
