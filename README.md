# Vivah Art Studio storefront — a Dafny model of its client-side logic

The storefront is a React single-page shop. Its inventory, prices and orders live on a
remote backend. What the browser decides for itself is modelled here:

- the header's cart drawer: cart lines, their total, the shipping-address form and the
  checkout sequence up to the payment widget and its two callbacks;
- the catalog grid: subcategory chips, filtering, the "View More" window, guest
  add-to-cart on the stored list, and wishlist hearts;
- the best-seller grid: the quantity selector clamped to 1..10, the in-flight set and
  the local wishlist;
- the session store, created from browser storage and changed by login, logout and the
  flag setter, plus the application shell's clear-storage-when-signed-out effect;
- the order-confirmation page: its order fetch, the 15-second countdown and the
  amounts and ids it shows;
- the account page: its two fetches, the status badge and the payment lines of each
  order card;
- the testimonial and banner carousels, and the loader's cycling dots.

Each source file is one module. Component state that handlers update becomes a Dafny
`class` whose methods carry `modifies` clauses and state the whole new state. Pure
derivations become functions, with lemmas about them. Every `fetch` is an `Outcome`
argument (`Common.Outcome`): a 2xx response, another status, or a rejected promise.
Each asynchronous call is one atomic step. Where a handler awaits a request and then
continues, the model splits it into two methods (for example
`BestSeller.BestSellerGrid.StartAddToCart` and `FinishAddToCart`). Requests that change
data on the backend are appended to a `sent` log in send order. Notifications go to a
`toasts` log. `navigate` calls are recorded as a navigation field.

Browser storage is one shared object (`BrowserStorage.LocalStorage`). It holds a map of
opaque strings, plus the guest cart under the key `cartItems`, which is kept as the list
of lines it encodes; no JSON code is modelled. Amounts are whole rupees (`int`). This
keeps the widget's conversion of an order total to paise (×100) exact and visible.

Where the code and the design description of the system disagree, the model follows the
code:

- No cart quantity cap applies outside the best-seller selector. Guest add-to-cart and the
  drawer's quantity update have no upper bound, and the drawer's update sets the quantity
  instead of adding a delta.
- The session starts signed-in only for a non-empty stored token
  (`Boolean(localStorage.getItem('token'))`). An empty token is kept as the token but
  does not sign the user in (`AuthStore.EmptyTokenIsSignedOut`).
- A guest's `clearCart` removes the `cartItems` key. The drawer's persistence effect then
  runs on the emptied list and writes it back, so the key ends up holding an empty list
  (`Header.CartDrawer.ClearCart` followed by `Header.CartDrawer.PersistGuestCart`).
- Manual navigation stops autoplay in the testimonial carousel only. The banner's timer
  keeps advancing after any click (`Banner.NavigationKeepsTimer`).
- The best-seller grid never clears its error. After a failed load, a successful
  "Try Again" still shows the error panel (`BestSeller.RetryKeepsError`).

## Model

| member | source | states |
|---|---|---|
| Common.FirstThrow | src/components/Header.tsx:200-225 | the position of the first rejected request in a run of requests: none exactly when no request is rejected, otherwise a rejected one with none rejected before it |
| Common.Toggle | src/components/CategoriesSection.tsx:195-204 | a heart click flips membership of exactly that product id and leaves every other id as it was |
| Common.ToggleTwice | src/components/BestSeller.tsx:136-148 | toggling the same id twice restores the set |
| Common.LastChars | src/pages/OrderConfirmation.tsx:225 | `slice(-n)`: min(n, length) characters, and they are the end of the string |
| Common.JsRem | src/components/testimonials-section.tsx:102 | JavaScript's `%`: equal to the mathematical remainder for a non-negative dividend, below the divisor in magnitude, with the dividend's sign |
| Common.NextIndex | src/components/testimonials-section.tsx:97 | `(i + 1) % n` stays in 0..n-1, steps by one, and wraps from the last index to 0 |
| Common.PrevIndex | src/components/Banner.tsx:37 | `(i - 1 + n) % n` stays in 0..n-1, steps back by one, and wraps from 0 to the last index |
| Common.DecimalText | src/components/BestSeller.tsx:117 | the quantity in the added-to-cart toast is printed as a non-empty string, all digits for a non-negative number and led by "-" exactly for a negative one |
| Common.DecimalTextRoundTrip | src/components/BestSeller.tsx:117 | the printed digits of a non-negative integer read back as that integer; a negative one prints as "-" and its magnitude |
| Common.PrevUndoesNext | src/components/Banner.tsx:32-38 | back after forward, and forward after back, returns to the same index |
| BrowserStorage.LocalStorage.Token | src/components/Header.tsx:57 | `getItem('token')` is present exactly when the key is stored, with the stored value |
| AuthStore.SessionFromStorage | src/stores/useAuthStore.ts:21-23 | the starting session: signed in exactly when a non-empty token is stored; the token is the stored value, or none when the key is absent; the user is the stored record when it is non-empty, or none |
| AuthStore.RestartAfterLogout | src/stores/useAuthStore.ts:59-69 | storage emptied by logout yields the signed-out session on the next start |
| AuthStore.RestartAfterLogin | src/stores/useAuthStore.ts:44-52 | what a successful login wrote is read back on the next start as the same signed-in session |
| AuthStore.EmptyTokenIsSignedOut | src/stores/useAuthStore.ts:21-23 | an empty stored token is kept as the token but leaves the session signed out |
| AuthStore.Store.constructor | src/stores/useAuthStore.ts:20-23 | the store's state is the session derived from storage at start |
| AuthStore.Store.SetIsAuthenticated | src/stores/useAuthStore.ts:25 | the flag takes the value; user and token do not change |
| AuthStore.Store.Login | src/stores/useAuthStore.ts:27-57 | a 2xx response writes token and user to storage and signs in with them; a non-2xx status rejects with "Login failed", a failed request rejects with its own error, and both leave store and storage unchanged |
| AuthStore.Store.Logout | src/stores/useAuthStore.ts:59-69 | storage is emptied and the store signed out, from any prior state |
| AuthStore.Store.ClearIfSignedOut | src/App.tsx:16-20 | while signed out, storage is emptied; while signed in it is left alone |
| AuthStore.LogoutIsIdempotent | src/stores/useAuthStore.ts:59-69 | two logouts leave exactly the state one leaves |
| Header.TotalAmountAppend | src/components/Header.tsx:105 | `TotalAmount`, the reduce of price × quantity over the lines: the total of two carts put together is the sum of their totals |
| Header.TotalAmountSingle | src/components/Header.tsx:105 | a one-line cart totals price × quantity |
| Header.TotalAmountReplace | src/components/Header.tsx:105 | replacing one line changes the total by exactly the difference of the two lines |
| Header.TotalAmountNonNegative | src/components/Header.tsx:105 | with no negative prices or quantities the total is never negative |
| Header.WithQuantity | src/components/Header.tsx:159-170 | every line with the id gets the new quantity, whatever its size; every other line, the length and the order are unchanged |
| Header.Without | src/components/Header.tsx:187 | exactly the lines whose id differs are kept, and none is added |
| Header.WithoutAppend | src/components/Header.tsx:187 | filtering works piece by piece, so the kept lines stay in their original order |
| Header.WithoutAbsent | src/components/Header.tsx:187 | removing an id no line carries leaves the cart as it was |
| Header.Removals | src/components/Header.tsx:203-212 | one removal request per line, in list order |
| Header.FirstDefault | src/components/Header.tsx:77 | `find(addr => addr.isDefault)`: none exactly when no address is default, otherwise the first default one |
| Header.WithField | src/components/Header.tsx:108-111 | an input changes exactly its own field of the form |
| Header.ClearedFieldBlocksSave | src/components/Header.tsx:123-127 | clearing any one of the five fields makes the form unsavable |
| Header.CheckoutGuard | src/components/Header.tsx:228-243 | checkout proceeds exactly when signed in, an address is saved and the cart is non-empty, and the first failing check (in that order) decides the outcome |
| Header.WidgetFor | src/components/Header.tsx:269-276 | the widget is opened with the order total in paise (a multiple of 100 whose hundredth is the total), in INR, for the gateway's order handle |
| Header.PaymentFailedText | src/components/Header.tsx:294-295 | the failure text carries the gateway's description, or "Please try again." when it is empty |
| Header.CartDrawer.constructor | src/components/Header.tsx:35-45 | the drawer starts with no lines, no saved address, a blank address form marked default and closed, no widget, nothing sent, no toast and no navigation |
| Header.CartDrawer.ApplyCartBody | src/components/Header.tsx:66-81 | a "success" body with a cart replaces the lines, and its first default address, if any, becomes the address and the form; any other body changes nothing |
| Header.CartDrawer.LoadCart | src/components/Header.tsx:55-96 | signed in: the fetched cart replaces the lines on a "success" body and the first default address fills the address and the form, a rejection reports; a guest's lines come from the stored list when there is one |
| Header.CartDrawer.PersistGuestCart | src/components/Header.tsx:98-102 | while signed out the lines are written to the `cartItems` key; otherwise storage is unchanged |
| Header.CartDrawer.OpenAddressForm | src/components/Header.tsx:114-120 | the form opens, prefilled with the saved address when there is one |
| Header.CartDrawer.ChangeAddressField | src/components/Header.tsx:108-111 | the form changes in exactly one field |
| Header.CartDrawer.SaveAddress | src/components/Header.tsx:123-131 | an incomplete form leaves the address and the open form as they were and reports; a complete one becomes the saved address and the form closes |
| Header.CartDrawer.CancelAddressForm | src/components/Header.tsx:134-137 | the form closes and returns to the saved address, or blank |
| Header.CartDrawer.RemoveItem | src/components/Header.tsx:176-197 | signed in, one removal request is sent and only its rejection keeps the lines; otherwise exactly the lines with a different id remain |
| Header.CartDrawer.UpdateQuantity | src/components/Header.tsx:143-173 | below 1 the call is `removeItem` and nothing else; otherwise every matching line gets the quantity, unless a signed-in request is rejected |
| Header.CartDrawer.ClearCart | src/components/Header.tsx:200-225 | signed in, removal requests go out one per line in order until one is rejected, which keeps the lines and the key; otherwise the lines end empty and the `cartItems` key is removed |
| Header.CartDrawer.Checkout | src/components/Header.tsx:228-303 | the guard chain sends nothing on the first failing check (signed out also navigates to the sign-in page); otherwise one order request from the saved address, and the widget opens only on the "Order created" message; the cart is never touched |
| Header.CartDrawer.OpenWidget | src/components/Header.tsx:266-293 | the widget is opened from the order response exactly when it carries the "Order created" message |
| Header.CartDrawer.PaymentSucceeded | src/components/Header.tsx:276-281 | the cart is cleared as `clearCart` clears it, then success is reported and the confirmation page is opened with the order and transaction ids |
| Header.CartDrawer.PaymentFailed | src/components/Header.tsx:294-297 | only a notification; the cart, the requests and the navigation are unchanged |
| Header.GuestCartSurvivesReload | src/components/Header.tsx:88-102 | a guest's lines written by the persistence effect are what the next mount loads |
| CategoriesSection.ChipFrom | src/components/CategoriesSection.tsx:64-68 | a chip keeps the subcategory's id and name, and its image or the placeholder when there is none |
| CategoriesSection.SubcategoryList | src/components/CategoriesSection.tsx:62-69 | the chip list starts with the "all" chip and continues with the fetched subcategories in order |
| CategoriesSection.ProductsFrom | src/components/CategoriesSection.tsx:99-114 | the mapped product list has one product per record, in the backend's order, each built by `ProductFrom` |
| CategoriesSection.ProductFrom | src/components/CategoriesSection.tsx:100-113 | a product keeps id, name, price and stock, with the image list or one placeholder and the subcategory name or "" |
| CategoriesSection.NewCartItem | src/components/CategoriesSection.tsx:129-135 | a first add creates a line of quantity 1 with the first image, or the placeholder when there is none |
| CategoriesSection.AddExistingIncrements | src/components/CategoriesSection.tsx:157-163 | a guest add of a product already in the list bumps each matching line by exactly one, keeps the length and every other line, with no cap |
| CategoriesSection.AddNewAppends | src/components/CategoriesSection.tsx:164-166 | a guest add of a new product appends its new line and keeps the rest |
| CategoriesSection.AddTwiceMergesLine | src/components/CategoriesSection.tsx:155-167 | adding the same new product twice gives one line of quantity 2, not two lines |
| CategoriesSection.AddToSavedCart | src/components/CategoriesSection.tsx:155-167 | the `find` + `forEach` / `push` loop yields exactly the reference list `GuestCartAfterAdd`: every line with the id one more, or the new line at the end |
| CategoriesSection.NameOf | src/components/CategoriesSection.tsx:215 | the selected chip's name is the name of the first chip with that id, or none when no chip has it |
| CategoriesSection.InSubcategory | src/components/CategoriesSection.tsx:215 | every kept product has that subcategory name and every product with it is kept, and no more than the input |
| CategoriesSection.InSubcategoryPiecewise | src/components/CategoriesSection.tsx:215 | the filter of a concatenation is the concatenation of the filters, and a single product is kept exactly when its subcategory is the name; so order and repetitions are the input's |
| CategoriesSection.Filtered | src/components/CategoriesSection.tsx:212-215 | for "all" every product, in order; otherwise a product is shown exactly when its subcategory is the selected chip's name |
| CategoriesSection.FilteredPiecewise | src/components/CategoriesSection.tsx:212-215 | the filtered list of a concatenation is the concatenation of the filtered lists, and one product is shown exactly for "all" or its chip's name; so the window slices the listing's own order |
| CategoriesSection.UnknownSelectionShowsNothing | src/components/CategoriesSection.tsx:215 | a selection no chip carries shows no products |
| CategoriesSection.SlicePrefix | src/components/CategoriesSection.tsx:218 | `slice(0, end)` is a prefix of min(end, length) items, with a negative end counting from the back |
| CategoriesSection.VisibleWindow | src/components/CategoriesSection.tsx:217-219 | of `Visible` and `HasMore`: the visible products are the first min(length, 4 × rows), and "View More" is offered exactly when more products lie beyond them |
| CategoriesSection.ViewMoreExtends | src/components/CategoriesSection.tsx:233-235 | "View More" only extends the window: the old window is a prefix of the new, which holds up to 12 more |
| CategoriesSection.CatalogGrid.constructor | src/components/CategoriesSection.tsx:38-46 | starts on "all" with the single initial chip, three rows, no products, no error and an empty wishlist |
| CategoriesSection.CatalogGrid.LoadSubcategories | src/components/CategoriesSection.tsx:53-80 | an array replaces the chips (the "all" chip first), anything else or a rejection sets its error, loading ends false |
| CategoriesSection.CatalogGrid.ApplySubcategories | src/components/CategoriesSection.tsx:60-70 | an array body becomes the chip list with the "all" chip first; any other body sets "Failed to fetch subcategories" and keeps the chips; nothing else changes |
| CategoriesSection.CatalogGrid.LoadProducts | src/components/CategoriesSection.tsx:83-125 | a "success" body replaces the products, any other body or a rejection sets its error, loading ends false |
| CategoriesSection.CatalogGrid.AddToCart | src/components/CategoriesSection.tsx:128-169 | signed in: one add request of quantity 1, a non-"success" body reloads the page and a rejection sets the error; a guest's stored list becomes the reference list after one add |
| CategoriesSection.CatalogGrid.ToggleWishlist | src/components/CategoriesSection.tsx:172-210 | signed out: an error, no request, the set unchanged; signed in: one add or remove request, and the heart flips only on "success", a failure status or rejection setting the matching error |
| CategoriesSection.CatalogGrid.ViewMore | src/components/CategoriesSection.tsx:233-235 | three more rows, nothing else |
| CategoriesSection.CatalogGrid.ChangeSubcategory | src/components/CategoriesSection.tsx:237-240 | the chip is selected and the window resets to three rows |
| BestSeller.Current | src/components/BestSeller.tsx:80 | `quantities[id] \|\| 1`: a missing (or zero) entry reads as 1 |
| BestSeller.Clamp | src/components/BestSeller.tsx:81 | `max(1, min(10, x))` lies in 1..10, keeps values already there and maps the rest to the nearer bound |
| BestSeller.AfterChange | src/components/BestSeller.tsx:78-87 | the product's entry becomes the clamped sum of its shown quantity and the change; every other entry is kept |
| BestSeller.ChangeKeepsRange | src/components/BestSeller.tsx:78-87 | quantity changes keep every entry in 1..10 |
| BestSeller.EnabledButtonsStepByOne | src/components/BestSeller.tsx:301-312 | `MinusDisabled` (at 1 or below) and `PlusDisabled` (at 10 or above): an enabled plus or minus moves the shown quantity by exactly one, and minus after plus restores it |
| BestSeller.BestSellers | src/components/BestSeller.tsx:59-60 | at most eight products are kept, the first of the shuffled listing in that order |
| BestSeller.InitialQuantities | src/components/BestSeller.tsx:65-68 | the loop gives every kept product, and only those, a quantity of 1 |
| BestSeller.BestSellerGrid.constructor | src/components/BestSeller.tsx:34-39 | the grid starts loading with no products, no error, no quantities, an empty wishlist and nothing in flight |
| BestSeller.BestSellerGrid.FetchProducts | src/components/BestSeller.tsx:47-76 | a 2xx listing keeps at most eight products each at quantity 1; a failure sets "Failed to load best sellers" and keeps the rest; loading ends false |
| BestSeller.BestSellerGrid.UpdateQuantity | src/components/BestSeller.tsx:78-87 | the quantity map becomes the clamped change for that product and nothing else changes |
| BestSeller.BestSellerGrid.StartAddToCart | src/components/BestSeller.tsx:89-111 | with no stored token: an error toast, no request, and the id dropped from the in-flight set; otherwise the request for the shown quantity goes out with the id in flight, which disables its Add button (`AddDisabled`) |
| BestSeller.BestSellerGrid.FinishAddToCart | src/components/BestSeller.tsx:113-133 | a 2xx response reports the product and quantity sent (`AddedText`) and resets the quantity to 1, anything else reports a failure and keeps it; the id leaves the in-flight set either way, so a product in stock can be added again |
| BestSeller.BestSellerGrid.ToggleWishlist | src/components/BestSeller.tsx:136-148 | the heart flips and the toast says which way |
| BestSeller.AddRoundTrip | src/components/BestSeller.tsx:89-133 | across a whole add the in-flight set ends as it began, and the quantity is 1 after success and unchanged after failure |
| BestSeller.RetryKeepsError | src/components/BestSeller.tsx:47-76 | a failed load followed by a successful retry still holds the error |
| Common.Shown | src/pages/OrderConfirmation.tsx:140-142 | a missing amount shows as 0 |
| OrderConfirmation.TotalPaidAsWritten | src/pages/OrderConfirmation.tsx:273-277 | "Total Paid" as the page computes it: the sum of the Subtotal and Shipping lines when both amounts are present, 0 otherwise |
| OrderConfirmation.TotalPaidIsCharged | src/pages/OrderConfirmation.tsx:270-278 | the widget's charge is exactly 100 × the corrected "Total Paid" (`TotalPaid`, the order total) of the same order |
| OrderConfirmation.TotalPaidAsWrittenOverstates | src/pages/OrderConfirmation.tsx:273-277 | the page's own sum shows 550 for an order of 500 with 50 shipping that was charged 50000 paise |
| OrderConfirmation.TotalPaidAgreement | src/pages/OrderConfirmation.tsx:273-277 | the page's sum and the charged total agree exactly when shipping is 0 |
| OrderConfirmation.ShownTransaction | src/pages/OrderConfirmation.tsx:227-232 | the transaction line appears exactly for a non-empty id, showing its last min(8, length) characters |
| OrderConfirmation.NextCount | src/pages/OrderConfirmation.tsx:105-113 | above 1 the countdown drops by one, at 1 or below it becomes 0, and it never leaves 0..start |
| OrderConfirmation.CountAfterFormula | src/pages/OrderConfirmation.tsx:104-115 | k ticks from c leave c − k while k < c and 0 from then on (15, 14, ..., 1, 0) |
| OrderConfirmation.ConfirmationPage.constructor | src/pages/OrderConfirmation.tsx:57-61 | the countdown starts at 15, not redirecting, loading, no order and no error |
| OrderConfirmation.ConfirmationPage.FetchOrderDetails | src/pages/OrderConfirmation.tsx:67-95 | a missing or empty order id sets "Order ID not provided" with no request; otherwise one request, whose non-2xx status or rejection sets "Failed to load order details"; loading ends false in every case |
| OrderConfirmation.ConfirmationPage.Tick | src/pages/OrderConfirmation.tsx:101-118 | no tick while loading; otherwise the countdown takes its next value, and at 1 or below the page redirects and schedules the way home; the countdown stays in 0..15 |
| OrderConfirmation.ConfirmationPage.ScheduledNavigation | src/pages/OrderConfirmation.tsx:108-110 | the scheduled timeout navigates to "/" |
| OrderConfirmation.ConfirmationPage.GoHome | src/pages/OrderConfirmation.tsx:120-123 | redirecting is set and the page navigates to "/" |
| OrderConfirmation.ConfirmationPage.Render | src/pages/OrderConfirmation.tsx:154-277 | the error panel with the error exactly when there is an error or no order; otherwise the summary as the page shows it: the last 8 characters of the order id, the shortened transaction id, the total as Subtotal, the shipping, "Total Paid" as written (Subtotal + Shipping when both are present), and the countdown exactly while not redirecting |
| OrderConfirmation.RunCountdown | src/pages/OrderConfirmation.tsx:101-118 | left to its interval, the page counts down to 0 and schedules the way home |
| Profile.ToLower | src/components/profile.tsx:148 | every upper-case ASCII letter is lowered, every other character kept, the length preserved |
| Profile.ToLowerIdempotent | src/components/profile.tsx:148 | lower-casing twice is lower-casing once |
| Profile.StatusColor | src/components/profile.tsx:147-163 | the class for each lower-cased status, "confirmed" and "processing" sharing blue, and gray for any other status |
| Profile.StatusIcon | src/components/profile.tsx:165-181 | the icon for each lower-cased status, with "pending" and any unknown status sharing the clock |
| Profile.BadgeIgnoresCase | src/components/profile.tsx:147-181 | a status and its lower-case form get the same colour and icon |
| Profile.ColorDeterminesIcon | src/components/profile.tsx:147-181 | equal colours give equal icons, but not the other way round ("pending" and an unknown status) |
| Profile.SubtotalAsWritten | src/components/profile.tsx:438-440 | the page's subtotal: when both amounts are non-zero it is what makes subtotal + shipping equal the total, and it is 0 when either is missing or zero |
| Profile.Subtotal | src/components/profile.tsx:438-454 | the subtotal plus the shipping shown is the total shown whenever both amounts are present |
| Profile.SubtotalAsWrittenDropsFreeShipping | src/components/profile.tsx:438-440 | the page's truthiness test shows a subtotal of 0 for an order of 500 with 0 shipping, so that order's card reads 0 + 0 = 500 |
| Profile.SubtotalAgreement | src/components/profile.tsx:438-440 | the page's subtotal and the corrected one agree whenever both amounts are non-zero |
| Profile.Card | src/components/profile.tsx:387-456 | an order card shows the last min(8, length) characters of the id, the status badge, and the payment lines as the page computes them: subtotal as written, shipping and total, which add up when both amounts are non-zero |
| Profile.ProfilePage.constructor | src/components/profile.tsx:95-98 | the page starts loading with no user, no orders and no error |
| Profile.ProfilePage.FetchUserProfile | src/components/profile.tsx:106-123 | a body with a user sets it, one without sets "No user data received", a rejection sets "Failed to fetch user profile"; loading is not touched |
| Profile.ProfilePage.FetchOrders | src/components/profile.tsx:125-145 | an array replaces the orders, anything else sets "Invalid orders data received", a rejection sets "Failed to fetch orders"; loading ends false in every case |
| Profile.ProfilePage.Render | src/components/profile.tsx:198-363 | the spinner exactly while loading; then the error panel, showing the error, exactly when there is an error or no user; otherwise the account view of the fetched user with one card per order, in order |
| Testimonials.Stars | src/components/testimonials-section.tsx:111-115 | five stars, the i-th filled exactly when i is below the rating |
| Testimonials.StarsFilled | src/components/testimonials-section.tsx:111-115 | a rating fills that many stars, clamped to 0..5, and every review fills all five |
| Testimonials.Carousel.constructor | src/components/testimonials-section.tsx:82-83 | the carousel starts on the first review with autoplay on |
| Testimonials.Carousel.AutoTick | src/components/testimonials-section.tsx:86-94 | the interval steps the index only while autoplay is on, and stays in 0..5 |
| Testimonials.Carousel.Next | src/components/testimonials-section.tsx:96-99 | the index steps forward modulo 6 and autoplay turns off |
| Testimonials.Carousel.Prev | src/components/testimonials-section.tsx:101-104 | the index steps back modulo 6 and autoplay turns off |
| Testimonials.Carousel.GoTo | src/components/testimonials-section.tsx:106-109 | the index becomes the dot's position and autoplay turns off |
| Testimonials.NextThenPrev | src/components/testimonials-section.tsx:96-104 | prev after next shows the same review, and the timer then no longer moves it |
| Banner.SlideOffset | src/components/Banner.tsx:50 | the strip's offset is index × 100 percent: 0, 100 or 200 |
| Banner.BannerCarousel.constructor | src/components/Banner.tsx:30 | the banner starts on the first slide |
| Banner.BannerCarousel.Next | src/components/Banner.tsx:32-34 | the slide steps forward modulo 3 |
| Banner.BannerCarousel.Prev | src/components/Banner.tsx:36-38 | the slide steps back modulo 3, from the first to the last |
| Banner.BannerCarousel.SelectDot | src/components/Banner.tsx:95 | the slide becomes the dot's position |
| Banner.NavigationKeepsTimer | src/components/Banner.tsx:32-43 | prev after next returns the slide, and the timer still advances it afterwards |
| Loader.WithDefaults | src/components/loader.tsx:11-16 | each missing prop takes its default ("md", "Loading...", shown, ""), each given prop is kept |
| Loader.TablesCoverEverySize | src/components/loader.tsx:31-43 | both lookup tables have an entry for every size |
| Loader.MessageLine | src/components/loader.tsx:80-85 | the message block is rendered exactly when showMessage, in the size's text class, with the dots after the message |
| Loader.NextDots | src/components/loader.tsx:22-25 | "..." becomes "", anything else gets one more dot |
| Loader.DotsOf | src/components/loader.tsx:17-26 | k dots |
| Loader.DotsCycle | src/components/loader.tsx:17-26 | from "", step n shows n mod 4 dots: never more than three, repeating with period 4 |
| Loader.DotsAnimation.constructor | src/components/loader.tsx:17 | the dots start empty, as after zero intervals |
| Loader.DotsAnimation.Tick | src/components/loader.tsx:21-26 | one interval applies the dots step and keeps the dots at three or fewer |

## Left out

- Network: endpoints, headers, bearer tokens and response parsing are not modelled. Each
  call is an `Outcome`. A body is read from a non-2xx response only where the handler
  reads it without checking the status. Read-only requests are not logged, except the
  order fetch on the confirmation page.
- Browser storage: JSON encoding is not modelled. `cartItems` holds the parsed list and
  every other key an opaque string. The user record is that opaque string both in
  storage and in the store, so a login response without a user is not distinguished.
- Payment gateway: the widget's internals, its key and its prefill are left out. Opening
  it is recorded as the options it receives. Its two callbacks are separate steps, each
  called at most once.
- Floating point: `toFixed`, `parseFloat`, `Number(...)`, `calculateDiscount`,
  `originalPrice`, `salePercentage` and `NaN` handling are left out. Amounts are whole
  rupees, not fractions.
- Header.CartDrawer.LoadCart: the cart lines are taken as already mapped from the
  backend's product records (price, first image or placeholder).
- CategoriesSection.CatalogGrid.LoadProducts: the query parameters are not modelled. This
  includes the server-side subcategory filter; the client-side filter is modelled.
- BestSeller.BestSellerGrid.FetchProducts: the random shuffle is a parameter. The only
  constraint on it is that it reorders the listing.
- Timers and effects: intervals and timeouts are explicit steps (`Tick`, `AutoTick`,
  `ScheduledNavigation`, `Next` for the banner timer). The confirmation page's
  three-second loader is left out, and so is the order in which React runs effects.
- Concurrency: concurrent tabs, out-of-order completion of requests and duplicate
  gateway callbacks are left out. Each handler runs to completion before the next.
- Profile.ToLower: only ASCII letters are lowered. JavaScript's `toLowerCase` also
  lowers other scripts, which the status names do not use.
- Presentation: markup, styles, icons, animations, date formatting, the profile page's
  tabs and wishlist tab, the review texts and images, and the Header's profile dropdown
  are left out. So are the purely presentational files and page shells.
- Routing: routes are left out. The application shell's clear-storage effect is modelled
  as `AuthStore.Store.ClearIfSignedOut`.
- Footer and sign-in page: thin wrappers over toasts and `login`, not part of this model.

## Findings

The page views (`OrderConfirmation.ConfirmationPage.Render`, `Profile.Card`) show the
amounts as the code computes them. The corrected members state what the amounts were
evidently meant to be, and lemmas compare the two.

| source | as written | input that shows it | evidently intended | confidence | as-written member | corrected member |
|---|---|---|---|---|---|---|
| src/pages/OrderConfirmation.tsx:273-277 | "Total Paid" adds `shippingCharges` to `totalAmount`, but checkout charges `totalAmount × 100` paise (src/components/Header.tsx:271), and the account page treats `totalAmount` as already including shipping (src/components/profile.tsx:438-454) | totalAmount 500, shippingCharges 50: the gateway charged 50000 paise, the page shows 550 | "Total Paid" is the amount charged, the order total | medium, not executed | OrderConfirmation.TotalPaidAsWrittenOverstates | OrderConfirmation.TotalPaidIsCharged |
| src/components/profile.tsx:438-440 | the subtotal is computed only when both amounts are truthy, so free shipping (0) shows a subtotal of 0 | totalAmount 500, shippingCharges 0: subtotal 0, shipping 0, total 500 | subtotal = total − shipping whenever both are present | high, not executed | Profile.SubtotalAsWrittenDropsFreeShipping | Profile.Subtotal |
