# zomato-clone: a Dafny model of accounts, cart and orders

This project models the logic of a small food-ordering web application. The
application has an Express server and a React client. The model covers four
parts:

- **Accounts and one-time codes.** The server controller registers, logs in,
  resets passwords, updates addresses and deletes accounts. Codes are six-digit
  numbers, stored hashed with a two-minute expiry in one of three slots of a
  user record: login, reset and delete. Module `Auth` holds the user collection
  as a class with a map, an id index and a clock. Module `Otp` holds the code
  slots and the two expiry checks. `AuthScenarios` strings handler calls into
  short client walks.
- **The cart.** It is a sequence of lines keyed by (name, restaurant id). It
  supports add-or-merge, a quantity update clamped at zero, keyed removal,
  clearing and a total computed from the lines (module `Cart`, class
  `ShoppingCart`).
- **Orders.** The order route validates and stores an order, trusting the
  declared total. It lists a user's orders newest first (module `Orders`,
  class `OrderStore`).
- **The client pages that feed these.** Registration and login guards, the
  request each sends and the text each shows (`RegisterPage`, `LoginPage`,
  `Validation`, `Timer`). The cart page's quantity box (`CartPage`). The
  checkout gate and payload (`Checkout`). Reorder (`Reorder`). The restaurant
  and meal search filters and the cart items they build (`RestaurantList`,
  `MealTypes`).

Prices are integer paise (hundredths of a rupee). Times on the server are
milliseconds, and the page countdowns are seconds. Hashing is an injective
abstract function: comparing a candidate with a digest means hashing the
candidate. An access token is an opaque value bound to the user id and
expiring a day after issue. The random draw of a code is a nondeterministic
choice in [100000, 999999]. Mail delivery is a `mailOk` parameter of the
issuing handlers. The code is stored before delivery is attempted, so a
failed delivery still leaves a fresh code in the slot.

Where the source mutates state, the model does too: `AuthServer`,
`ShoppingCart` and `OrderStore` are classes. Reorder's nested loops are a
method with loop invariants, proved against `Replay`, a function of the
order's items. Filters, guards, formatters and payload builders are
functions.

## Model

| member | source | states |
|---|---|---|
| Otp.CodeText | server/controllers/authController.js:9 | a drawn code in [100000, 999999] prints as exactly six digits with no leading zero, and reads back as the number drawn |
| Decimal.ValueOfToDecimal | server/controllers/authController.js:9 | reading back the decimal text of a number gives the number |
| Decimal.ToDecimalLength | server/controllers/authController.js:9 | a number with k digits prints as k characters with no leading zero |
| Decimal.ToDecimalLeadingDigit | client/src/pages/Register.jsx:34-36 | a numeral starts with '0' exactly when the number is zero |
| Otp.Issue | server/controllers/authController.js:109-113 | the slot an issuer writes verifies the issued code and expires 120 000 ms after now |
| Otp.IssuedCodeWindow | server/controllers/authController.js:27-33 | a freshly issued code passes the strict check (register, reset) exactly before its expiry, and the lenient check (login, delete) up to and including it |
| Otp.ExpiryBoundary | server/controllers/authController.js:72-75 | the lenient check accepts whatever the strict one does, and differs from it only at the instant of expiry |
| Auth.Status | server/controllers/authController.js:60-88 | every refusal is a 4xx or 5xx status |
| Auth.Message | server/controllers/authController.js:60-88 | a reply carries a non-empty `message` exactly when its status is not 500; the 500 replies send `error` instead |
| Auth.RegisterInputError | server/controllers/authController.js:14-25 | registration input passes exactly when name and code are present, the email matches the pattern, the password has at least 8 UTF-16 code units and the address is not blank; an empty field gives 'All fields are required' |
| Auth.ResetInputError | server/controllers/authController.js:192-200 | reset input passes exactly when a code is present, the email matches the pattern and the new password has at least 8 UTF-16 code units |
| Auth.Registered | server/controllers/authController.js:38-44 | the saved record has the given name and address, the hashed password and an empty login slot; id, email, reset slot and delete slot are kept |
| Auth.AuthServer.RegisterUser | server/controllers/authController.js:11-55 | input errors first; then a missing record, wrong code or expired code gives 'Invalid or expired OTP'; then a record with a password gives 'User already exists'; otherwise it saves name, hash and address, clears the login slot and returns a token for the record's id; nothing else changes |
| Auth.AuthServer.LoginUser | server/controllers/authController.js:57-95 | a missing or password-less record gives 404 with no change; a supplied code is checked (accepted at its expiry) and its slot cleared before the password is compared, so a right code with a wrong password still burns it and gives 401; without a code the password alone suffices |
| Auth.AuthServer.SendLoginOtp | server/controllers/authController.js:97-124 | only a registered user gets a code; only the login slot is written, with a fresh code expiring in two minutes; a failed delivery gives 500 with the slot already written |
| Auth.AuthServer.SendOtpRegister | server/controllers/authController.js:126-158 | a record with a password is refused before any write; otherwise a password-less record with the email, the address and a fresh login code is created or updated |
| Auth.AuthServer.SendResetOtp | server/controllers/authController.js:160-187 | only a registered user gets a code, and only the reset slot is written |
| Auth.AuthServer.ResetPassword | server/controllers/authController.js:189-220 | a short new password or a wrong or expired code (refused at the instant of expiry) leaves the store as it was; success replaces the hash and clears only the reset slot |
| Auth.AuthServer.UpdateAddress | server/controllers/authController.js:234-253 | a blank address or an unknown id is refused with no change; otherwise only that user's address changes |
| Auth.AuthServer.SendDeleteOtp | server/controllers/authController.js:255-277 | only the delete slot of the user with this id is written |
| Auth.AuthServer.DeleteAccount | server/controllers/authController.js:279-300 | a missing, wrong or expired code (accepted at the instant of expiry) leaves the record as it was; success removes the record and its id |
| AuthScenarios.LoginCodeIsSingleUse | server/controllers/authController.js:72-79 | a second login with the same code is refused |
| AuthScenarios.LoginCodeBurnedByWrongPassword | server/controllers/authController.js:72-84 | a right code with a wrong password gives 401, and a retry with the right password and the same code is refused |
| AuthScenarios.LoginCodeAcceptedAtExpiry | server/controllers/authController.js:73 | login accepts a code at the instant it expires |
| AuthScenarios.ResetCodeRefusedAtExpiry | server/controllers/authController.js:202-207 | reset refuses a correct code at the instant it expires |
| AuthScenarios.NoRegistrationOverExistingPassword | server/controllers/authController.js:27-36 | a valid login code of a registered user cannot register over that user |
| AuthScenarios.RegisterThenLogin | server/controllers/authController.js:11-95 | after the registration code and registration, a password login succeeds for the same user id |
| AuthScenarios.DeletedAccountStaysGone | server/controllers/authController.js:279-296 | after a successful deletion the id is not found again |
| Cart.IndexOfKey | client/src/context/CartContext.jsx:10-12 | the first line holding the key, or none exactly when no line holds it |
| Cart.IncomingQuantity | client/src/context/CartContext.jsx:15-18 | a missing or zero incoming quantity counts as one; any other is used as given |
| Cart.Add | client/src/context/CartContext.jsx:8-20 | with the key present, the length is kept and every line of another key is unchanged; with the key absent, one line is appended with the incoming quantity; afterwards the key is present |
| Cart.AddExisting | client/src/context/CartContext.jsx:13-16 | with unique keys and the key present, exactly the matching line gains the incoming quantity |
| Cart.AddKeepsKeysUnique | client/src/context/CartContext.jsx:8-20 | adding keeps at most one line per key |
| Cart.AddTotal | client/src/context/CartContext.jsx:13-18 | adding raises the total by the incoming quantity times the price of the line it lands on; a merge keeps the existing line's price |
| Cart.ClampQuantity | client/src/context/CartContext.jsx:31 | negative quantities become 0; others are kept |
| Cart.SetQuantity | client/src/context/CartContext.jsx:22-37 | length, keys and every other line are unchanged; an absent key is a no-op |
| Cart.SetQuantityExact | client/src/context/CartContext.jsx:27-33 | with unique keys, the matching line takes the clamped quantity and no other line changes |
| Cart.SetQuantityKeepsKeysUnique | client/src/context/CartContext.jsx:22-37 | updating keeps at most one line per key |
| Cart.Without | client/src/context/CartContext.jsx:39-41 | exactly the lines of the key are dropped, the rest keep their order, and an absent key is a no-op |
| Cart.WithoutKeepsKeysUnique | client/src/context/CartContext.jsx:39-41 | removal keeps at most one line per key |
| Cart.TotalEmpty | client/src/context/CartContext.jsx:45-48 | the empty cart totals 0 |
| Cart.TotalAppend | client/src/context/CartContext.jsx:45-48 | the total of two carts joined is the sum of their totals |
| Cart.TotalUpdate | client/src/context/CartContext.jsx:45-48 | replacing one line moves the total by the difference of the two line costs |
| Cart.ZeroQuantityLineAddsNothing | client/src/context/CartContext.jsx:45-48 | a zero-quantity line can be dropped without changing the total |
| Cart.TotalPositive | client/src/context/CartContext.jsx:45-48 | with non-negative prices and quantities the total is non-negative, and positive when some line has both a positive price and a positive quantity |
| Cart.ShoppingCart.constructor | client/src/context/CartContext.jsx:6 | the cart starts empty |
| Cart.ShoppingCart.AddToCart | client/src/context/CartContext.jsx:8-20 | the new lines are `Add` of the old, and keys stay unique |
| Cart.ShoppingCart.UpdateQuantity | client/src/context/CartContext.jsx:22-37 | the new lines are `SetQuantity` of the old, and keys stay unique |
| Cart.ShoppingCart.RemoveItem | client/src/context/CartContext.jsx:39-41 | the new lines are `Without` of the old, and keys stay unique |
| Cart.ShoppingCart.ClearCart | client/src/context/CartContext.jsx:43 | the cart is empty |
| Orders.NewOrder | server/routes/orderRoutes.js:12-24 | accepted exactly when items is a non-empty array and the total is a positive number; the order carries the caller, the items, the declared total verbatim and status "Pending" |
| Orders.DeclaredTotalIsTrusted | server/routes/orderRoutes.js:12-24 | a total that disagrees with the items, and a zero quantity, are accepted |
| Orders.OrdersOf | server/routes/orderRoutes.js:36 | exactly the caller's orders, each as many times as it is stored and no other order, in stored order |
| Orders.InsertByDate | server/routes/orderRoutes.js:36 | inserting into a newest-first list keeps it newest first and grows it by one |
| Orders.InsertByDatePermutes | server/routes/orderRoutes.js:36 | insertion adds exactly the one order |
| Orders.SortNewestFirst | server/routes/orderRoutes.js:36 | the result is ordered by creation time, newest first, and has the input's length |
| Orders.SortNewestFirstPermutes | server/routes/orderRoutes.js:36 | sorting is a permutation |
| Orders.ListOrders | server/routes/orderRoutes.js:34-41 | the listing is newest first and is a permutation of the caller's orders; an order is listed exactly when it is the caller's |
| Orders.OrderStore.PlaceOrder | server/routes/orderRoutes.js:8-31 | the reply is `NewOrder` of the request; an accepted order is appended to the collection and a rejected one saves nothing |
| CartPage.QuantityToApply | client/src/pages/Cart.jsx:11-13 | the empty box is 0; NaN, infinite, negative or fractional input is refused; an accepted value is the number typed |
| CartPage.QuantityChange | client/src/pages/Cart.jsx:10-22 | a refused input leaves the cart as it is; an accepted one is a keyed quantity update |
| CartPage.QuantityChangeEffect | client/src/pages/Cart.jsx:10-22 | an edit keeps length, keys and uniqueness, never makes a quantity negative, and puts the accepted value on the item's line |
| CartPage.WarnsZero | client/src/pages/Cart.jsx:15 | the zero warning is raised exactly for the empty box and for 0 |
| CartPage.HandleQuantityChange | client/src/pages/Cart.jsx:10-22 | the cart becomes `QuantityChange` of the old cart, and the warning flag is `WarnsZero` |
| CartPage.HandleRemoveItem | client/src/pages/Cart.jsx:24-30 | the item's key is removed and no line of it remains |
| Checkout.HasZeroQuantity | client/src/pages/Checkout.jsx:13 | true exactly when some line's quantity is 0 |
| Checkout.ViewOf | client/src/pages/Checkout.jsx:60-91 | an empty cart shows the empty message; otherwise "Place Order" is enabled exactly when no quantity is 0 |
| Checkout.PayloadOf | client/src/pages/Checkout.jsx:26 | the request body is the cart itself with the cart's computed total |
| Checkout.AsOrderItems | server/models/Order.js:5-11 | the stored items keep name, price and quantity of each cart line, position by position |
| Checkout.AllowedCheckoutAccepted | client/src/pages/Checkout.jsx:24-37 | a checkout the button allows, from non-negative prices with one priced line, is accepted by the route and stores the cart's own total |
| Checkout.FailureText | client/src/pages/Checkout.jsx:49-50 | the reply's error text when present, the default text otherwise |
| Orders.ErrorText | server/routes/orderRoutes.js:16 | every refusal of the order route carries a non-empty `error` text |
| Checkout.RejectedOrderShowsReason | server/routes/orderRoutes.js:16 | every refusal of the order route reaches the page as the route's own text |
| Checkout.PlaceOrder | client/src/pages/Checkout.jsx:15-58 | with no token or an empty one, nothing is sent and the cart is unchanged; otherwise the payload of the current cart is sent; only a created order clears the cart; a 401 expires the session; other errors show their text |
| Reorder.ReorderLine | client/src/pages/Orders.jsx:64-69 | the cart item copies name and price, has no restaurant id and empty description and image, and adds one unit |
| Reorder.HandleReorder | client/src/pages/Orders.jsx:53-73 | without a user the cart is unchanged; with one the cart becomes `Replay` of the old cart and the order's items, i.e. q adds for an item of quantity q |
| Reorder.ZeroQuantityItemAddsNothing | client/src/pages/Orders.jsx:70-72 | an item of quantity 0 or less adds nothing |
| Reorder.AddOntoLast | client/src/pages/Orders.jsx:70-72 | one more unit of the item on the last line lands on that line |
| Reorder.AddTimesOnLast | client/src/pages/Orders.jsx:70-72 | k more units of the item on the last line grow only that line, by k |
| Reorder.AddTimesFresh | client/src/pages/Orders.jsx:70-72 | q units of an item whose key is not in the cart append one line of quantity q |
| Reorder.ReplayFresh | client/src/pages/Orders.jsx:63-73 | replaying distinct, positive, fresh items appends one line per item, in order |
| Reorder.ReorderIntoEmptyCart | client/src/pages/Orders.jsx:63-73 | into an empty cart, distinct names with quantities of at least 1 give one line per item, in order, with its name, price and quantity and no restaurant id |
| Reorder.ReorderSkipsLinesWithRestaurant | client/src/pages/Orders.jsx:64-69 | a reordered dish does not merge with lines that carry a restaurant id; it is appended |
| Validation.IsValidEmail | client/src/pages/Register.jsx:39 | holds exactly when the string matches the email pattern |
| Validation.ValidEmailShape | client/src/pages/Register.jsx:39 | a valid address has no white space and exactly one '@', with something before it and an inner '.' after it |
| Validation.Sanitize | client/src/pages/Register.jsx:40 | the result keeps every non-markup character in order and contains no markup character |
| Validation.SanitizeAppend | client/src/pages/Register.jsx:40 | sanitising distributes over concatenation |
| Validation.SanitizeFixesClean | client/src/pages/Register.jsx:40 | a string without markup is unchanged |
| Validation.SanitizeIdempotent | client/src/pages/Register.jsx:40 | sanitising twice is sanitising once |
| RegisterPage.DetailsError | client/src/pages/Register.jsx:47-53 | no error exactly when the sanitised email is valid and the sanitised name and address are not blank; otherwise the first failing check's message |
| RegisterPage.SendOtpRequest | client/src/pages/Register.jsx:42-61 | a request is made exactly when the details pass; it carries the sanitised email and address |
| RegisterPage.SubmitRequest | client/src/pages/Register.jsx:80-95 | a request is made exactly when the details pass, the raw password has at least 8 UTF-16 code units and the sanitised code is not empty; the password is sent as typed and the other fields sanitised |
| RegisterPage.SubmitPassesServerChecks | client/src/pages/Register.jsx:86-95 | every request the page sends passes the server's own input checks |
| RegisterPage.SendOtpRequestStable | client/src/pages/Register.jsx:47-59 | sending the sanitised form again sends the same request |
| RegisterPage.FailureText | client/src/pages/Register.jsx:66-68 | the text 'Email already exists' maps to the exists message; any other message is shown; with no message the fallback is shown |
| RegisterPage.ServerFailureShown | client/src/pages/Register.jsx:100-104 | a server refusal is shown as its own message, or as the fallback for 500 replies |
| RegisterPage.AfterOtpSent | client/src/pages/Register.jsx:44-45 | the error cleared before the request stays cleared; sets the code step, a 120-second wait and the success text; the form is kept |
| RegisterPage.ChangeEmail | client/src/pages/Register.jsx:108-114 | clears the code step, the wait, the code field and both messages; keeps name, email, address and password |
| Timer.TwoDigits | client/src/pages/Register.jsx:36 | the seconds part always has two digits and reads back as the seconds |
| Timer.FormatTimer | client/src/pages/Register.jsx:33-37 | the text is the whole minutes as their shortest numeral (no leading zero, so it starts with '0' exactly below one minute), ':', and the remaining seconds as two digits |
| Timer.FormatTimerInjective | client/src/pages/Register.jsx:33-37 | different counts render differently |
| Timer.CountdownTick | client/src/pages/Register.jsx:27 | one tick subtracts a second from a positive count and sends 1 or less to 0, never below |
| Timer.AfterTicksCountsDown | client/src/pages/Register.jsx:25-28 | after k ticks the count is t - k, or 0 once k reaches t |
| LoginPage.ValidEmailLooksLikeEmail | client/src/pages/Login.jsx:40 | every address matching the pattern passes the page's '@' and '.' check |
| LoginPage.LooksLikeEmailIsLooser | client/src/pages/Login.jsx:40 | "@." passes the page's check and fails the pattern |
| LoginPage.SendOtpTarget | client/src/pages/Login.jsx:40-48 | refused exactly when the email lacks '@' or '.'; otherwise the reset endpoint exactly in reset mode |
| LoginPage.AfterOtpSent | client/src/pages/Login.jsx:38-53 | the error cleared before the request stays cleared; sets the code step and a 120-second wait, and remembers the email the code went to; the form and the mode are kept |
| LoginPage.SendOtpFailureText | client/src/pages/Login.jsx:56 | the server's message when present, the fallback otherwise |
| LoginPage.SendOtpFailureShown | server/controllers/authController.js:97-186 | every refusal of the two code-issuing handlers is shown as the server's own message, and their 500 replies, which carry no `message`, as the fallback |
| LoginPage.Submit | client/src/pages/Login.jsx:63-91 | a request is made exactly when the email check, the login password length (6), the code-when-sent rule and the reset password length (6) pass, each failure with its message; reset mode sends email, code and new password; login sends email and password, plus the code once one was sent |
| LoginPage.ShortResetPasswordRefused | client/src/pages/Login.jsx:79-82 | a reset the page lets through with a new password under 8 UTF-16 code units is refused by the server |
| LoginPage.ShortResetPasswordExample | client/src/pages/Login.jsx:79-82 | such a reset exists: a six-character new password |
| LoginPage.AfterResetSuccess | client/src/pages/Login.jsx:98-103 | back to login mode with no code step, a zero wait, no remembered email, only the email kept and the success text shown |
| LoginPage.ForgotPassword | client/src/pages/Login.jsx:114-121 | reset mode on with only the email kept and the wait, the remembered email and the error cleared |
| LoginPage.ChangeEmail | client/src/pages/Login.jsx:123-129 | the wait is cleared only when the email differs from the one the last code went to; the code step and reset mode are turned off |
| LoginPage.SubmitFailureTextAsWritten | client/src/pages/Login.jsx:107-109 | the failed-reset text is shown exactly when the server sent a message or reset mode is on; otherwise the failed-login text |
| LoginPage.WrongPasswordReadsAsFailedReset | client/src/pages/Login.jsx:107-109 | a wrong password at login is reported as a failed password reset |
| LoginPage.SubmitFailureText | client/src/pages/Login.jsx:107-109 | the server's message when there is one, otherwise the current mode's fallback |
| LoginPage.ServerRefusalShown | client/src/pages/Login.jsx:107-109 | with that reading, every non-500 refusal is shown as sent |
| Text.ToLower | client/src/pages/RestaurantList.jsx:72 | lower-casing keeps the length and folds each character |
| Text.ToLowerIdempotent | client/src/pages/RestaurantList.jsx:72 | lower-casing twice is lower-casing once |
| Text.ContainsEmpty | client/src/pages/RestaurantList.jsx:72 | every string contains the empty string |
| Text.Utf16Length | server/controllers/authController.js:20 | a string's `length` counts its UTF-16 code units: between one and two per character, and one per character exactly when every character lies in the Basic Multilingual Plane; a single character counts 1 inside that plane and 2 outside it |
| Text.Utf16LengthAppend | server/controllers/authController.js:20 | the count of a concatenation is the sum of the counts, which with the single-character values fixes every string's `length` |
| Text.MixedTextCountsEach | client/src/pages/Register.jsx:89 | a letter followed by an emoji has a `length` of 3 |
| Text.AstralCharactersCountTwice | client/src/pages/Register.jsx:89 | four emoji have a `length` of 8, so they pass an 8-unit minimum |
| RestaurantList.Filtered | client/src/pages/RestaurantList.jsx:69-73 | an order-preserving subsequence holding every matching restaurant as many times as it was fetched and no other; a restaurant is kept exactly when the cuisine is "all" or equal, and its lower-cased name contains the lower-cased search |
| RestaurantList.UnfilteredKeepsEverything | client/src/pages/RestaurantList.jsx:69-73 | "all" with an empty search keeps every restaurant |
| RestaurantList.SearchIgnoresCase | client/src/pages/RestaurantList.jsx:72 | searching for the lower-cased text finds the same restaurants |
| RestaurantList.AsCartItem | client/src/pages/RestaurantList.jsx:58 | the menu item goes to the cart unchanged: no restaurant id, one unit |
| RestaurantList.SameDishFromTwoRestaurantsMerges | client/src/pages/RestaurantList.jsx:58 | the same dish name from two restaurants shares one cart line, at the first one's price |
| RestaurantList.HandleAddToCart | client/src/pages/RestaurantList.jsx:47-67 | without a user the cart is unchanged; with one the menu item is added |
| MealTypes.FilteredMeals | client/src/components/MealTypes.jsx:25-29 | an order-preserving subsequence holding every matching meal as many times as it was fetched and no other; a meal is kept exactly when its lower-cased name or description contains the lower-cased query |
| MealTypes.EmptyQueryKeepsAllMeals | client/src/components/MealTypes.jsx:25-29 | an empty query keeps every meal |
| MealTypes.NameMatchKept | client/src/components/MealTypes.jsx:27 | a meal whose name contains the query, in any case, is kept |
| MealTypes.MealCartItem | client/src/components/MealTypes.jsx:38-43 | the meal's fields with quantity 1; a falsy price becomes 299.99 and a falsy restaurant id the fixed default |
| MealTypes.MealCartItemDefaults | client/src/components/MealTypes.jsx:40-42 | a meal's cart item always has a non-empty restaurant id and a non-zero price, positive when the meal's price is not negative |
| MealTypes.MealAddsOneUnit | client/src/components/MealTypes.jsx:38-44 | adding a meal raises the cart total by one unit's price |
| MealTypes.HandleAddToCart | client/src/components/MealTypes.jsx:31-45 | without a user no add happens; with one the meal's cart item is added |

## Left out

- Hashing and tokens: bcrypt and jsonwebtoken are an injective abstract hash and an opaque token value. Salts, cost factors and signatures are not modelled.
- Otp.Hash: bcryptjs reads only the first 72 UTF-8 bytes of its input. The model hashes the whole string, so two passwords that share their first 72 bytes are told apart here but not by the server. Codes are 6 digits and unaffected.
- Auth.AuthServer.LoginUser: rests on Otp.Hash, so its password branch refuses a password that differs from the stored one only after the first 72 UTF-8 bytes, which the server would accept.
- AuthScenarios.LoginCodeBurnedByWrongPassword: rests on Otp.Hash in the same way. Its "wrong password" is wrong in the model's full-string sense, and a password agreeing on the first 72 UTF-8 bytes would log in.
- Mail delivery and its 30-second timeout are the `mailOk` parameter. The mail itself is not modelled.
- The rate limiter on the auth routes and the token-checking middleware are not modelled. The order routes and the id-based account handlers take an authenticated user id as a parameter.
- `getProfile` (authController.js:222-232) is a read-only lookup outside the code lifecycle, and is not modelled.
- Errors thrown by the database (the catch-all 500 replies) are not modelled. Only the refusals the handlers decide are.
- Mongoose schema validation is not modelled. The registration shell record is stored without name or password, as the upsert does.
- Floating-point prices and `toFixed` are not modelled. Prices are integer paise, so 299.99 is 29999.
- `Number` parsing in the cart page is not modelled. The box's text is given as already parsed: empty, NaN, infinite or a real number.
- `toLowerCase` folds only the ASCII letters. Unicode case mapping is not modelled.
- React state and effects are not modelled. Each operation is applied once to the current state, and StrictMode's double run of the updater, which mutates the line in place, is left out. The interval timers are given as explicit ticks.
- Timer.CountdownTick: models the registration page's updater. The login page's updater subtracts one without a floor. Both agree while the count is positive, which is the only time that page's interval runs.
- Orders.SortNewestFirst: orders created at the same instant come out in an order the model fixes. The database leaves that order unspecified, so the contract promises only newest-first and a permutation.
- Cart.jsx's "Clear Cart" button calls `clearCart` directly. It is modelled by `Cart.ShoppingCart.ClearCart`.
- Profile.jsx and ForgotPassword.jsx are not part of this model. Their checks are the same sanitiser, email pattern, length minimum and countdown modelled from Register.jsx.
- Toasts, navigation, loading flags and presentation components are not modelled.

## Findings

| source | as written | input that shows it | evidently intended | confidence | as-written member | corrected member |
|---|---|---|---|---|---|---|
| client/src/pages/Login.jsx:107-109 | `message \|\| isResetMode ? resetText : loginText` groups as `(message \|\| isResetMode) ? …`, so any server message is replaced by the failed-reset text | a login with a wrong password: the server answers 401 'Invalid password', and the page says "Password reset failed" | show the server's message when there is one, otherwise the fallback of the current mode | high (not executed) | LoginPage.SubmitFailureTextAsWritten, LoginPage.WrongPasswordReadsAsFailedReset | LoginPage.SubmitFailureText, LoginPage.ServerRefusalShown |
