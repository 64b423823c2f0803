# TechMart core, modelled in Dafny

TechMart is a React Native shop app. This project models the logic that app
keeps in its local state: the cart provider, the mock auth provider and the
screens that validate a form, call a provider and update their own state.

The model covers:

- **The cart store** (`Cart`). An ordered list of lines keyed by product id.
  - `addToCart` merges a product into its line.
  - `removeFromCart` filters.
  - `updateQuantity` sets a quantity, or removes the line for a quantity of
    zero or less.
  - `clearCart` empties the list.
  - `totalItems` and `totalPrice` are sums over the lines.

  The provider is the class `CartStore`. Its methods are specified by list
  functions, and they keep product ids pairwise distinct.
- **The auth provider** (`Auth`). Four state cells set by each operation.
  Every operation is a mock: nothing is checked, and each one resolves.
  `updateProfile` merges a partial user into the signed-in user. The class
  invariant is that a token is held exactly when a user is.
- **The address book** (`Addresses`). Add, delete and set-default over the
  user's address list, written back through `updateProfile`. Together they
  keep exactly one default address.
- **Money and the receipt** (`Receipt`, `ProductCard`, `Checkout`).
  - The receipt figures fall back to computed values when none are stored.
  - The receipt has one row per line.
  - The payment-method captions.
  - The price a product card sells at and shows.
  - The stock bar.
  - The checkout summary and the checkout gate.
- **The screens' forms and step machines**.
  - Login: e-mail mode or phone mode with a one-time code (`Login`).
  - Sign-up validity (`Signup`).
  - The four-step forgot-password flow (`ForgotPassword`).
  - The ordered change-password checks (`Settings`).
  - Edit-profile seeding, validity and payload (`EditProfile`).
  - The onboarding carousel and its completion flag (`Onboarding`).

Modelling conventions:

- Money is `real`; quantities and stock are `int`.
- Strings are `seq<char>`. `String.prototype.trim` is modelled by
  `Common.Trim` over the ECMAScript whitespace characters.
- Each screen is a class holding its state cells. It refers to the provider
  it uses, a `Session`, `CartStore` or `KeyValueStorage`.
- An awaited provider call is modelled by a `Reply` parameter: `Resolved`, or
  `Rejected` with an optional error message. On `Resolved` the screen calls
  the provider's method, so both states change together. With this
  repository's mock providers every call resolves. The `Rejected` branches
  model the `catch` blocks as written.
- `Date.now()` is a `now: nat` parameter. A settled scroll position is an
  `index` parameter that is already rounded.

## Model

| member | source | states |
|---|---|---|
| Common.TrimStart | app/auth/signup.tsx:42 | the leading part `trim()` removes is all whitespace, and what is left is a suffix that does not start with whitespace |
| Common.TrimEnd | app/auth/signup.tsx:43 | the trailing part `trim()` removes is all whitespace, and what is left is a prefix that does not end with whitespace |
| Common.BlankIffAllWhitespace | app/profile/addresses.tsx:23 | a field fails its `x.trim()` check exactly when every character of it is whitespace |
| Common.NatToDecimal | app/profile/addresses.tsx:34 | a clock reading renders as at least one decimal digit, with no leading zero |
| Common.DecimalRoundTrip | app/profile/addresses.tsx:34 | reading the rendered digits back gives the number |
| Common.DecimalInjective | app/profile/addresses.tsx:34 | two different numbers never render to the same digits |
| Auth.MergeInto | hooks/use-auth.tsx:189 | `prev ? {...prev, ...data} : null`: no user stays no user, and a user stays a user |
| Auth.Merge | hooks/use-auth.tsx:189 | `{...prev, ...data}` on a signed-in user; its field-by-field meaning is the contract of MergeFields |
| Auth.MergeFields | hooks/use-auth.tsx:189 | each field present in the patch replaces the user's field, and every absent field is kept |
| Auth.MergeNoChanges | hooks/use-auth.tsx:189 | the empty patch leaves the user unchanged |
| Auth.MergeIdempotent | hooks/use-auth.tsx:189 | applying the same patch twice equals applying it once |
| Auth.MergeTwice | hooks/use-auth.tsx:189 | two successive updates equal one update with the combined patch, the later fields winning |
| Auth.Session.constructor | hooks/use-auth.tsx:48-51 | the provider starts not loading, with no token, no user and `isSignout` false |
| Auth.Session.SignIn | hooks/use-auth.tsx:54-76 | sets token `mock-token` and user 1 "John Doe" with the given e-mail and no addresses; the password is ignored; `isSignout` false, not loading, invariant kept |
| Auth.Session.SignInWithPhone | hooks/use-auth.tsx:78-99 | sets token `mock-token-phone` and user 2 "Guest User" with the given phone number; the code is ignored; not loading |
| Auth.Session.SignUp | hooks/use-auth.tsx:101-130 | sets token `mock-token` and user `new-user` with the given names, e-mail and phone; the password is not stored; not loading |
| Auth.Session.SignOut | hooks/use-auth.tsx:132-144 | clears the token and the user, sets `isSignout`, not loading |
| Auth.Session.SendOTP | hooks/use-auth.tsx:146-155 | token, user and `isSignout` unchanged, and not loading afterwards |
| Auth.Session.VerifyOTP | hooks/use-auth.tsx:157-169 | token, user and `isSignout` unchanged; any code passes |
| Auth.Session.ResetPassword | hooks/use-auth.tsx:171-183 | token, user and `isSignout` unchanged |
| Auth.Session.UpdateProfile | hooks/use-auth.tsx:185-195 | the user becomes the merge of the patch into the previous user; the token is kept and the token/user invariant holds |
| Cart.FirstIndex | hooks/use-cart.tsx:29 | the index `find` stops at: a line carrying the id with no earlier line carrying it, or -1 when no line does |
| Cart.Find | hooks/use-cart.tsx:29 | finds a line exactly when some line carries the id, and the line found carries it |
| Cart.AddQty | hooks/use-cart.tsx:31 | same length; every line with the id has `qty` added and every other line is unchanged |
| Cart.SetQty | hooks/use-cart.tsx:43 | same length; every line with the id gets the new quantity and every other line is unchanged |
| Cart.RemoveLines | hooks/use-cart.tsx:38 | no line with the id remains, every survivor comes from the input, and every line with another id survives |
| Cart.AddLine | hooks/use-cart.tsx:27-34 | the list `addToCart` stores: it always holds a line with the product's id, grows by one exactly when no line held it, and every existing line keeps its id and position |
| Cart.UpdatedLines | hooks/use-cart.tsx:41-44 | the list `updateQuantity` stores: a quantity of zero or less leaves no line with the id; a positive one keeps the length and every line's id in place |
| Cart.TotalItems | hooks/use-cart.tsx:48 | the `reduce` summing `qty`; its behaviour under each operation is given by the totals lemmas below |
| Cart.TotalPrice | hooks/use-cart.tsx:49 | the `reduce` summing `qty * price`; its behaviour under each operation is given by the totals lemmas below |
| Cart.AddNewProduct | hooks/use-cart.tsx:27-34 | a product not in the cart gets one new line at the end, with its own fields and the given quantity; the earlier lines are untouched and `find` now returns the new line |
| Cart.FindAppendNew | hooks/use-cart.tsx:33 | after appending a line with a new id, `find` returns that line |
| Cart.AddExistingProduct | hooks/use-cart.tsx:29-31 | a product already in the cart keeps the length, changes no line with another id, and its found line gains `qty` while keeping its stored name, price and image |
| Cart.FindAddQty | hooks/use-cart.tsx:29-31 | after the quantity map, `find` returns the previously found line with `qty` added |
| Cart.AddLineOtherIds | hooks/use-cart.tsx:29-33 | `addToCart` changes what `find` returns for no other product id |
| Cart.AddQtyAbsent | hooks/use-cart.tsx:31 | with no line carrying the id, the quantity map is the identity |
| Cart.AddLineKeepsIdsDistinct | hooks/use-cart.tsx:29-33 | pairwise distinct product ids stay pairwise distinct after `addToCart` |
| Cart.RemoveAbsent | hooks/use-cart.tsx:38 | removing an id that no line carries changes nothing |
| Cart.RemoveAppend | hooks/use-cart.tsx:38 | the filter works piecewise over a concatenation, so the survivors keep their relative order |
| Cart.RemoveDistinct | hooks/use-cart.tsx:37-39 | with distinct ids, removing the id of line k yields exactly the lines before k followed by the lines after k |
| Cart.RemoveKeepsIdsDistinct | hooks/use-cart.tsx:37-39 | distinct ids stay distinct after a removal |
| Cart.UpdatePositive | hooks/use-cart.tsx:43 | a positive quantity keeps the length and every id, name and price, sets the quantity of the matching lines only, and changes nothing for an unknown id |
| Cart.UpdateNonPositive | hooks/use-cart.tsx:41-42 | a quantity of zero or less is exactly `removeFromCart` |
| Cart.UpdateKeepsIdsDistinct | hooks/use-cart.tsx:41-43 | distinct ids stay distinct after `updateQuantity` |
| Cart.TotalsConcat | hooks/use-cart.tsx:48-49 | both totals add up over a concatenation of two lists |
| Cart.TotalsAppend | hooks/use-cart.tsx:48-49 | appending a line raises `totalItems` by its quantity and `totalPrice` by its quantity times its price |
| Cart.AddNewTotals | hooks/use-cart.tsx:48-49 | adding a new product raises `totalItems` by `qty` and `totalPrice` by `qty` times the product's price |
| Cart.AddExistingTotals | hooks/use-cart.tsx:48-49 | with distinct ids, adding a product already on line k raises `totalItems` by `qty` and `totalPrice` by `qty` times line k's stored price |
| Cart.TotalsAddQty | hooks/use-cart.tsx:49 | with distinct ids, the quantity map raises the totals by `qty` and by `qty` times the matching line's price |
| Cart.EmptyTotals | hooks/use-cart.tsx:48-49 | an empty cart has `totalItems` 0 and `totalPrice` 0 |
| Cart.UnitsAtLeastLines | hooks/use-cart.tsx:48 | when every line holds at least one unit, `totalItems` is at least the number of lines |
| Cart.TotalPriceNonNegative | hooks/use-cart.tsx:49 | no negative quantity or price gives a non-negative `totalPrice` |
| Cart.CartStore.constructor | hooks/use-cart.tsx:25 | the cart starts empty |
| Cart.CartStore.AddToCart | hooks/use-cart.tsx:27-35 | the new list is the `addToCart` list of the old one, and ids stay distinct |
| Cart.CartStore.RemoveFromCart | hooks/use-cart.tsx:37-39 | the new list is the old one filtered on the id, and ids stay distinct |
| Cart.CartStore.UpdateQuantity | hooks/use-cart.tsx:41-44 | the new list is the removal (qty ≤ 0) or the quantity map (qty > 0) of the old one, and ids stay distinct |
| Cart.CartStore.ClearCart | hooks/use-cart.tsx:46 | the list is empty, so both totals are 0 |
| Addresses.RemoveAddress | app/profile/addresses.tsx:68 | no address with the id remains, every survivor comes from the list, and every address with another id survives |
| Addresses.IsFormValid | app/profile/addresses.tsx:23 | `street.trim() && city.trim() && zip.trim() && country.trim()` |
| Addresses.FormValidIffVisible | app/profile/addresses.tsx:23 | the form is complete exactly when each of its four fields has a character that is not whitespace |
| Addresses.AddAddress | app/profile/addresses.tsx:33-42 | the list gains one address at the end with the form's fields and the new id, and the earlier addresses are kept; the number of defaults becomes 1 for an empty list and is otherwise unchanged |
| Addresses.DeleteAddress | app/profile/addresses.tsx:68-72 | the stored list has as many addresses as the filter leaves, none with the deleted id, and every address after the first is taken unchanged from the list |
| Addresses.SetDefault | app/profile/addresses.tsx:88-91 | same length, and each address keeps all its fields except `isDefault`, which becomes "its id is the chosen id" |
| Addresses.AddKeepsOneDefault | app/profile/addresses.tsx:33-42 | adding appends exactly one address at the end, which is the default exactly when the list was empty; an empty list or a list with one default ends with exactly one default |
| Addresses.NewAddressIdsDiffer | app/profile/addresses.tsx:34 | ids made at two different clock readings differ |
| Addresses.RemoveAbsent | app/profile/addresses.tsx:68 | filtering an id that no address carries keeps the list |
| Addresses.RemoveAppend | app/profile/addresses.tsx:68 | the filter works piecewise, so survivors keep their relative order |
| Addresses.DeleteNonDefault | app/profile/addresses.tsx:68-72 | deleting an address that is not the default only filters, so every survivor keeps its flag |
| Addresses.DeleteDefault | app/profile/addresses.tsx:69-72 | deleting the default while others remain makes the first survivor the default and changes nothing else |
| Addresses.DeleteAt | app/profile/addresses.tsx:68 | with distinct ids, deleting the id of address k yields the addresses before k followed by those after k |
| Addresses.RemoveDefaultCount | app/profile/addresses.tsx:68-70 | the filter lowers the number of defaults exactly when a default address carries the id |
| Addresses.DeleteKeepsOneDefault | app/profile/addresses.tsx:68-72 | a list with one default keeps exactly one default after a delete that leaves an address |
| Addresses.SetDefaultCount | app/profile/addresses.tsx:88-91 | after set-default the number of defaults is the number of addresses carrying the id |
| Addresses.SetDefaultKeepsOneDefault | app/profile/addresses.tsx:88-91 | with distinct ids, set-default of a present id leaves exactly one default, the chosen address |
| Addresses.UserWithAddress | app/profile/addresses.tsx:33-43 | the updated user's addresses are the old list with the new address appended; no user stays no user |
| Addresses.AddressesScreen.constructor | app/profile/addresses.tsx:13-20 | the form starts empty with country "Ghana", collapsed and not loading |
| Addresses.AddressesScreen.HandleAddAddress | app/profile/addresses.tsx:25-57 | the profile gains the new address exactly when the trimmed form is complete and the update resolves; the form is then reset and the provider ends not loading. Otherwise the form and all four provider cells are unchanged. The token and `isSignout` are always kept. An incomplete form leaves `loading` untouched; a complete one ends with `loading` false |
| Addresses.AddressesScreen.SubmitForm | app/profile/addresses.tsx:31-56 | past the form check, `addAddress` reports success exactly when the update resolves. Then the profile holds the old list with the new address appended, the form is reset and the provider ends not loading. On a rejection the form, the user and `isLoading` are unchanged. The token and `isSignout` are always kept, and `loading` always ends false |
| Addresses.AddressesScreen.ResetForm | app/profile/addresses.tsx:46-50 | the four fields go back to their initial values and the form collapses |
| Addresses.AddressesScreen.HandleDeleteAddress | app/profile/addresses.tsx:65-80 | on a resolved update the user's list is the delete list and the provider ends not loading; on a rejected one the provider is unchanged. The token and `isSignout` are always kept, and `loading` is false at the end |
| Addresses.AddressesScreen.HandleSetDefault | app/profile/addresses.tsx:85-99 | on a resolved update the user's list is the set-default list and the provider ends not loading; on a rejected one the provider is unchanged. The token and `isSignout` are always kept, and `loading` is false at the end |
| Receipt.UnstoredFigures | components/receipt.tsx:16-18 | without a stored receipt, the subtotal is the sum of qty × price, the tax is 5% of it and the total 105% of it |
| Receipt.StoredFiguresWin | components/receipt.tsx:16-18 | each stored figure is shown as stored, whatever the lines say |
| Receipt.Subtotal | components/receipt.tsx:16 | `receipt?.subtotal ?? sum of qty * price`; its meaning is given by UnstoredFigures and StoredFiguresWin |
| Receipt.Tax | components/receipt.tsx:17 | `receipt?.tax ?? subtotal * 0.05`; its meaning is given by UnstoredFigures, StoredFiguresWin and StoredSubtotalDrives |
| Receipt.Total | components/receipt.tsx:18 | `receipt?.total ?? subtotal + tax`; its meaning is given by TotalAddsUp and StoredFiguresWin |
| Receipt.StoredZeroSubtotal | components/receipt.tsx:16-18 | a stored subtotal of 0 is kept (`??` is not `\|\|`), so tax and total are 0 too |
| Receipt.StoredSubtotalDrives | components/receipt.tsx:16-18 | a stored subtotal alone drives the derived tax (5%) and total (105%) |
| Receipt.TotalAddsUp | components/receipt.tsx:18 | with no stored total, the total is the shown subtotal plus the shown tax |
| Receipt.Rows | components/receipt.tsx:60-71 | one row per order line, in order, with that line's name, quantity and price, and a line total of qty × price |
| Receipt.RowsAddUp | components/receipt.tsx:68 | the printed line totals add up to the cart total of the lines |
| Receipt.RowsAddUpToSubtotal | components/receipt.tsx:16 | with no stored subtotal, the printed line totals add up to the shown subtotal |
| Receipt.PaymentLabelTable | components/receipt.tsx:10-14 | card, cash and mobile_money have their captions, and every other key has none |
| Receipt.PaymentLabel | components/receipt.tsx:98 | `paymentMethodLabels[order.paymentMethod]`, missing for an unknown key; its table is the contract of PaymentLabelTable |
| Receipt.PaymentLabelsDistinct | components/receipt.tsx:10-14 | no two payment methods share a caption |
| Receipt.ClockSuffix | components/receipt.tsx:34 | `slice(-6)` of the clock's digits is a suffix of them: exactly six digits when the rendering is longer, and the whole rendering otherwise |
| Receipt.ReceiptNumber | components/receipt.tsx:34 | a stored non-empty receipt number is shown as is, and the number shown is never empty |
| Receipt.MadeUpReceiptNumber | components/receipt.tsx:34 | without a stored number, the number is "RCP-" followed by one to six digits |
| ProductCard.EffectivePrice | components/ui/product-card.tsx:29 | the discount price when it is present and non-zero, else the list price; no order between the two is required |
| ProductCard.CartEntry | components/ui/product-card.tsx:26-31 | the item handed to the cart carries the product's id, name and image and the effective price |
| ProductCard.DisplayedPrice | components/ui/product-card.tsx:121 | the price printed on the card (line 65 in the horizontal variant) is the price handed to the cart |
| ProductCard.HandleAddToCart | components/ui/product-card.tsx:25-32 | "+" leaves the cart as `addToCart` of the card's item with one unit |
| ProductCard.AddRaisesTotalByShownPrice | components/ui/product-card.tsx:119-126 | "+" on a product not in the cart raises `totalPrice` by the shown price and `totalItems` by one |
| ProductCard.DiscountAboveListPrice | constants/dummy-data.ts:20-33 | the first catalogue product sells at its discount price 6500, above its list price 5937 |
| ProductCard.Clamp | components/ui/product-card.tsx:43 | `Math.min(Math.max(x, lo), hi)` lies in [lo, hi] and is x when x already does |
| ProductCard.StockPercent | components/ui/product-card.tsx:43 | the width of the stock bar; its five cases are the contract of StockPercentBounds |
| ProductCard.StockPercentBounds | components/ui/product-card.tsx:43 | the bar is within [10, 90] for a non-zero stock, 65 for a zero stock, twice the stock for 5..45, 10 below zero and 90 above 45 |
| ProductCard.StockPercentMonotone | components/ui/product-card.tsx:43 | a larger non-zero stock never gives a shorter bar |
| ProductCard.StockLabel | components/ui/product-card.tsx:72 | ten units or more read "Selling Fast"; fewer read "Only N left", with N the count's decimal digits, prefixed by a minus sign when negative |
| ProductCard.StockLabelWarns | components/ui/product-card.tsx:72 | the caption starts "Only " exactly when fewer than ten units are left |
| ProductCard.LowStockLabel | components/ui/product-card.tsx:72 | for 0..9 units the caption is "Only N left" with the single digit N |
| ProductCard.NegativeStockLabel | components/ui/product-card.tsx:72 | a negative stock reads "Only -N left", with N the digits of its magnitude |
| ForgotPassword.NeverBackwards | app/auth/forgot-password.tsx:47-116 | a shown button keeps the step (only "Send New Code") or moves exactly one step forward |
| ForgotPassword.ForwardMoves | app/auth/forgot-password.tsx:47-116 | the only forward moves are email→otp, otp→password and password→success |
| ForgotPassword.EnabledPasses | app/auth/forgot-password.tsx:260-330 | every pressable button except "Send New Code" passes its handler's check while nothing is loading |
| ForgotPassword.ResetCheck | app/auth/forgot-password.tsx:43-45 | the reset check accepts exactly a password of six or more characters that the confirmation repeats |
| ForgotPassword.Passes | app/auth/forgot-password.tsx:41-45 | the check each handler runs before its call; EnabledPasses and ResetCheck state what it accepts |
| ForgotPassword.ForgotPasswordScreen.constructor | app/auth/forgot-password.tsx:32-39 | the flow starts at the e-mail step with empty fields, no error and not loading |
| ForgotPassword.ForgotPasswordScreen.HandleSendOTP | app/auth/forgot-password.tsx:47-69 | an e-mail without '@' or '.' sets the check's alert, keeps the step and makes no call. Otherwise, on resolve the step becomes otp with the sent-code message. On reject the call's error is shown, and the step, the message and the provider are kept. `loading` is false afterwards |
| ForgotPassword.ForgotPasswordScreen.HandleVerifyOTP | app/auth/forgot-password.tsx:71-93 | a code that is not six characters is refused with no call. Otherwise, on resolve the step becomes password and the message is cleared. On reject the error is shown, and the step, the message and the provider are kept |
| ForgotPassword.ForgotPasswordScreen.HandleResetPassword | app/auth/forgot-password.tsx:95-116 | a short or unconfirmed password is refused with no call. Otherwise, on resolve the step becomes success. On reject the error is shown, and the step and the provider are kept |
| Login.FormValidReadsOwnFields | app/auth/login.tsx:44-48 | e-mail mode ignores the phone fields, phone mode ignores the e-mail fields, and the code matters only once it is sent |
| Login.FormValid | app/auth/login.tsx:39-48 | `isFormValid` for either mode; FormValidReadsOwnFields and VerifyStricterThanSend state what it reads and demands |
| Login.VerifyStricterThanSend | app/auth/login.tsx:44-48 | once the code is sent, validity is the send-time validity plus a code of four characters |
| Login.LoginButtonPressable | app/auth/login.tsx:203-205 | `disabled={!isFormValid && !loading}` with `loading` lets the button be pressed exactly when the form is valid and nothing is loading |
| Login.LoginScreen.constructor | app/auth/login.tsx:29-36 | e-mail mode, code not sent, empty fields, no error, not loading |
| Login.LoginScreen.HandleLogin | app/auth/login.tsx:50-74 | the first phone-mode submit only marks the code sent; otherwise a resolved sign-in installs the mode's mock user and leaves `loading` set, and a rejected one shows the error and clears `loading` |
| Login.LoginScreen.ToggleMethod | app/auth/login.tsx:179-183 | flips the mode, un-sends the code and clears the error |
| Login.LoginScreen.EditPhone | app/auth/login.tsx:143 | the phone number cannot change once the code is sent |
| Signup.FormValidMeans | app/auth/signup.tsx:41-56 | a valid form has names with a non-blank character, a phone of at least eight characters, and a password of at least six that the confirmation repeats; unchecked terms or a pending call make every form invalid |
| Signup.FormValid | app/auth/signup.tsx:42-56 | `isFormValid`; FormValidMeans states what a valid form holds |
| Signup.EmptyPasswordsDoNotMatch | app/auth/signup.tsx:47 | two empty passwords do not count as matching |
| Signup.SignupScreen.constructor | app/auth/signup.tsx:31-39 | empty fields, terms unchecked, no error, not loading |
| Signup.SignupScreen.HandleSignUp | app/auth/signup.tsx:58-72 | on resolve the error is cleared and the provider holds the new user built from first name, last name, e-mail and phone; on reject the error is shown and the provider is unchanged; `loading` is false either way |
| Signup.SignupScreen.ToggleTerms | app/auth/signup.tsx:188 | the checkbox flips `agreeToTerms` |
| Settings.AcceptedIff | app/profile/settings.tsx:28-44 | the checks accept exactly a non-empty current password with a new password of at least six characters that the confirmation repeats |
| Settings.CheckPasswords | app/profile/settings.tsx:31-44 | the ordered checks of `handleChangePassword`; AcceptedIff and CheckOrder state when each outcome occurs |
| Settings.CheckOrder | app/profile/settings.tsx:31-44 | each outcome (empty field, mismatch, too short) holds exactly under its condition after the earlier checks passed |
| Settings.CurrentPasswordIgnored | app/profile/settings.tsx:31-47 | any two non-empty current passwords give the same outcome |
| Settings.EnabledUpdate | app/profile/settings.tsx:173 | pressing the enabled button can only fail on an empty current password |
| Settings.SettingsScreen.constructor | app/profile/settings.tsx:13-26 | e-mail, SMS and order-update notifications on and promotions off; the password form collapsed and empty |
| Settings.SettingsScreen.HandleChangePassword | app/profile/settings.tsx:30-68 | the outcome is the ordered check's; a failed check changes nothing, and an accepted one ends with `loading` false |
| Settings.SettingsScreen.AcknowledgeSuccess | app/profile/settings.tsx:55-60 | "OK" clears the three password fields and collapses the form |
| Settings.SettingsScreen.HandleSaveNotifications | app/profile/settings.tsx:70-81 | `loading` is false afterwards |
| Checkout.OptionalFieldsIgnored | app/checkout.tsx:25 | cardholder name, expiry and CVV play no part in the gate |
| Checkout.RequiredFilled | app/checkout.tsx:25 | the required-fields gate; OptionalFieldsIgnored states what it ignores |
| Checkout.Render | app/checkout.tsx:42-76 | the empty state or the summary; RenderedAmounts states its amounts |
| Checkout.RenderedAmounts | app/checkout.tsx:42-76 | the empty state shows exactly for an empty cart; otherwise subtotal, total and the pay amount all equal `totalPrice`, and the count is the number of lines |
| Checkout.CountIsLines | app/checkout.tsx:66 | one line of two units shows a count of 1 while `totalItems` is 2 |
| Checkout.CheckoutScreen.constructor | app/checkout.tsx:16-22 | the form starts empty and not loading |
| Checkout.CheckoutScreen.HandleCheckout | app/checkout.tsx:24-40 | an order is placed exactly when name, e-mail, address and card number are non-empty, and the cart is then empty; otherwise neither `loading` nor the cart changes |
| EditProfile.InitialFields | app/profile/edit-profile.tsx:15-18 | each field starts from the user's value, or "" when there is no user or no value |
| EditProfile.PhoneUserMustAddEmail | app/profile/edit-profile.tsx:15-20 | a phone-only user cannot save the form as it opens |
| EditProfile.FormValid | app/profile/edit-profile.tsx:20 | the four trimmed fields are non-empty; PhoneUserMustAddEmail shows a form it rejects |
| EditProfile.SaveKeepsIdAndAddresses | app/profile/edit-profile.tsx:30-35 | saving sets the four fields to the typed, untrimmed values and keeps the user's id and addresses |
| EditProfile.SavePatch | app/profile/edit-profile.tsx:29-34 | the patch `handleSave` writes; SaveKeepsIdAndAddresses and SaveUnedited state its effect |
| EditProfile.SaveUnedited | app/profile/edit-profile.tsx:15-35 | saving the form unedited leaves a user with e-mail and phone unchanged |
| EditProfile.UpperAscii | app/profile/edit-profile.tsx:55 | a lower-case ASCII letter maps to its capital, and every other character to itself |
| EditProfile.Initial | app/profile/edit-profile.tsx:55 | no character for an empty name, one otherwise |
| EditProfile.Initials | app/profile/edit-profile.tsx:55 | the avatar text is the two upper-cased first letters when both names are non-empty, and at most two characters |
| EditProfile.UpperAsciiIdempotent | app/profile/edit-profile.tsx:55 | upper-casing twice equals upper-casing once |
| EditProfile.EditProfileScreen.constructor | app/profile/edit-profile.tsx:13-18 | the fields start from the signed-in user; not loading |
| EditProfile.EditProfileScreen.HandleSave | app/profile/edit-profile.tsx:22-44 | saved exactly when the trimmed form is complete and the update resolves. The user is then the merge of the four fields and the provider ends not loading, with the token and `isSignout` kept. Otherwise the provider is unchanged. An incomplete form leaves `loading` untouched |
| Onboarding.KeyValueStorage.SetItem | app/onboarding/index.tsx:49 | the key maps to the value, and every other entry is kept |
| Onboarding.NextProgression | app/onboarding/index.tsx:56-62 | "Next" scrolls one slide on and completes exactly on the last slide: 0→1, 1→2, then complete |
| Onboarding.NextFor | app/onboarding/index.tsx:56-62 | what "Next" does at an index; NextProgression states the progression |
| Onboarding.ButtonsMatchNext | app/onboarding/index.tsx:121-134 | "Get Started" is shown exactly where "Next" would complete |
| Onboarding.ButtonsFor | app/onboarding/index.tsx:121-134 | which buttons the footer shows; ButtonsMatchNext ties them to NextFor |
| Onboarding.Dots | app/onboarding/index.tsx:105-115 | three dots, the one at the current index highlighted |
| Onboarding.ExactlyOneDot | app/onboarding/index.tsx:105-115 | exactly one dot is highlighted for an index on the carousel |
| Onboarding.OnboardingScreen.constructor | app/onboarding/index.tsx:44 | the carousel opens on slide 0 |
| Onboarding.OnboardingScreen.OnScrollEnd | app/onboarding/index.tsx:95-98 | a settled swipe sets the current index |
| Onboarding.OnboardingScreen.HandleComplete | app/onboarding/index.tsx:47-54 | a resolved write stores "true" under `hasSeenOnboarding`, which the root layout reads back as seen, and navigates; a failed write changes nothing |
| Onboarding.OnboardingScreen.HandleNext | app/onboarding/index.tsx:56-62 | before the last slide it requests the next index and stores nothing. On the last slide, a resolved write stores "true" under `hasSeenOnboarding`, keeps every other entry and navigates; a failed write changes neither storage nor navigation |

## Left out

- Rendering, styles, images, gradients, alert dialogs and router navigation
  are not modelled. Navigation appears only as `navigatedAway` on the
  onboarding screen.
- Timers and promise delays are not modelled. Each handler is one atomic
  step, and `handleCheckout`'s timer callback runs within the handler.
  Nothing runs concurrently, so interleavings are not modelled.
- Floating point is not modelled. Money and the stock bar are exact reals,
  and `toFixed` formatting is left out.
- Onboarding's `Math.round` of the scroll offset
  (app/onboarding/index.tsx:96) is not modelled. The index arrives already
  rounded.
- `Date.now()` is a parameter, and the receipt's clock suffix is computed
  from it.
- The AsyncStorage key-value store is a map field. The root layout's
  read-back is the predicate `Onboarding.HasSeenOnboarding`.
- Addresses.AddressesScreen.HandleDeleteAddress: the model writes the
  promoted default into a fresh list. The source sets the flag in place on
  an address object shared with the current user's list
  (app/profile/addresses.tsx:71). If the update then rejected, the current
  list would already carry the flag, while the model leaves the user
  unchanged. The mock provider never rejects, so this cannot happen here.
- Common.IsWhitespace: `trim()` also removes any other Unicode "Zs"
  character. The model lists the ones Unicode defines today.
- Receipt.PaymentLabel: a key such as `toString` would reach an inherited
  property of the plain object. The model gives every key outside the table
  no label.
- EditProfile.UpperAscii: `toUpperCase` of non-ASCII letters is not modelled.
  They are kept as they are.
- A first character that is half of a UTF-16 surrogate pair is not modelled
  either.
- String lengths differ for characters outside the Basic Multilingual
  Plane. JavaScript's `.length` counts UTF-16 code units, so such a
  character counts 2. Dafny's `|s|` counts it once. Three emoji, for
  example, pass `length >= 6` but fail `|s| >= 6`. This affects every
  length check: ForgotPassword.OtpValid and ForgotPassword.PasswordValid,
  Login.FormValid, Signup.FormValid and Settings.CheckPasswords. The model
  measures in characters and so accepts fewer such inputs.
- The cart line's `image` and the product's `image` are opaque asset handles
  (`Option<string>` / `string`).
- Optional `isDefault` is a `bool`. An absent flag is only ever read as
  falsy.
- Sign-up passes the phone number as given, so `phoneNumber` is always
  present.
- Products' other fields (description, rating, specs, …) and the order
  record's origin are not modelled. The receipt's `Order` type is not
  defined by the cart hook, so it is a local record here.
- Screens outside the core are not part of this model: the cart tab, orders,
  product details, welcome and the tab layout. Neither are the
  presentational components.
