# Agrihub storefront core, modelled in Dafny

Agrihub is a farm-produce marketplace. Buyers browse products, keep a cart and
check out; farmers list products and are told about new orders and reviews;
administrators move orders through their statuses. This project models the
storefront's core logic:

- **Cart store** (`cart_context.dfy`). The cart is a list of lines with one line per id. It
  supports add, remove, set-quantity and clear, and keeps the totals. A guest's cart is mirrored
  to local storage. A signed-in user's cart is mirrored to a remote table: writes are logged,
  and rows are read back with defaults for missing snapshot fields.
- **Checkout and cart pages** (`checkout.dfy`, `cart_page.dfy`). These cover the price
  breakdown (free shipping from ₹500, 5% tax rounded to the rupee) and the shipping form. They
  also cover the address text stored with the order and the three inserts of the payment step.
  The two pages are proved to price a cart identically.
- **Product page and marketplace** (`product_detail.dfy`, `marketplace.dfy`). These cover
  the cart line a product offers and adding a chosen quantity. They also cover reviews and
  their average, the case-insensitive search, and the seller-profile lookup.
- **Notification bell** (`notifications_dropdown.dfy`). The list follows realtime insert,
  update and delete events. The model also covers the unread badge, mark-as-read, deletion and
  the relative time label.
- **Dashboards and account page** (`admin_dashboard.dfy`, `farmer_dashboard.dfy`,
  `account.dfy`). These cover the role gate and the stat figures. They also cover the order
  actions an administrator is offered, the farmer's product form, and the farmer's
  five-entry notification window. On the account page they cover the order counters and the
  role shown.
- **Realtime notification hook** (`realtime_notifications.dfy`). It decides, for each table
  event, whether a notification row is written for the signed-in user and with what text.
- **Row-level-security helpers** (`supabase_helpers.dfy`). These recognise a permission
  denial, shape a query's answer into one result type, and look up public profiles.

`common.dfy` holds shared pieces. These are JavaScript's `||` defaults, ASCII lower-casing,
substring search, decimal rendering, and sums, filters and counts over lists. `domain.dfy`
holds the rows the pages share: orders, products and notifications. It also holds the
order-status constants, the status counts and the rounding used for Math.round on a quotient.

Money is whole rupees (`int`). The database, the realtime channels, local storage and the
toasts are not executed. An operation that talks to them takes their answer as a parameter
(a row list, an error, a `QueryOutcome`). Where the remote side matters, the operation
records the writes it issues in an `issued` log.

## Model

| member | source | states |
|---|---|---|
| CartContext.FirstMatch | src/contexts/CartContext.tsx:127 | the index found is the first line with the same id or the same non-empty product id; None exactly when no line matches |
| CartContext.EmptyTotals | src/contexts/CartContext.tsx:181-182 | an empty cart counts 0 items and costs 0 |
| CartContext.TotalItemsAtLeastLines | src/contexts/CartContext.tsx:181 | with positive quantities the item count is at least the number of lines |
| CartContext.AddToMatchedLine | src/contexts/CartContext.tsx:127-136 | adding a product already in the cart raises exactly the matched line by 1 and leaves every other line |
| CartContext.AddAppendsNewLine | src/contexts/CartContext.tsx:137-141 | adding an unmatched product appends it with quantity 1 after the untouched old lines |
| CartContext.AddKeepsValid | src/contexts/CartContext.tsx:125-142 | adding keeps one line per id and every quantity at least 1 |
| CartContext.AddKeepsProductsUnique | src/contexts/CartContext.tsx:127-141 | adding never creates a second line for a product id already in the cart |
| CartContext.AddTotals | src/contexts/CartContext.tsx:125-142 | adding raises the item count by exactly 1 and the total price by the unit price of the line that absorbs it |
| CartContext.AddTotalsMatched | src/contexts/CartContext.tsx:128-135 | adding to matched line k raises the total price by that line's price, not the candidate's |
| CartContext.FirstMatchIgnoresQuantity | src/contexts/CartContext.tsx:127-131 | raising a quantity does not change which line a later add matches |
| CartContext.RemoveDropsExactly | src/contexts/CartContext.tsx:151 | after removal a line is kept iff it was there with another id, order is kept, and no line with the id remains |
| CartContext.RemoveMissingIsNoOp | src/contexts/CartContext.tsx:145-152 | removing an id that is not in the cart changes nothing |
| CartContext.RemoveCutsLine | src/contexts/CartContext.tsx:151 | with unique ids, removing line k's id is cutting position k out |
| CartContext.RemoveTotals | src/contexts/CartContext.tsx:145-153 | removing a line takes exactly its quantity off the item count and its subtotal off the price |
| CartContext.RemoveKeepsValid | src/contexts/CartContext.tsx:151 | removal keeps the line invariants |
| CartContext.SetQuantityTouchesOneLine | src/contexts/CartContext.tsx:161 | setting a quantity keeps the length and every other line, sets the quantity on lines with the id, and is a no-op for a missing id |
| CartContext.SetQuantityKeepsValid | src/contexts/CartContext.tsx:155-167 | a positive quantity keeps the line invariants |
| CartContext.SetQuantityTotals | src/contexts/CartContext.tsx:161 | setting line k to q moves the item count by q minus its old quantity and the price accordingly |
| CartContext.RowsToItems | src/contexts/CartContext.tsx:66-79 | loading maps every remote row to one line, in order |
| CartContext.RowWithoutSnapshotDefaults | src/contexts/CartContext.tsx:67-78 | a row without a snapshot loads as 'Product', 0, 'unit', the wheat ear, 'Farmer', 'India', not organic, keeping its id and quantity |
| CartContext.InsertThenLoad | src/contexts/CartContext.tsx:93-106 | a line inserted and loaded back is the same line under the row id the store assigned, when its texts are non-empty |
| CartContext.LoadedLinesValid | src/contexts/CartContext.tsx:66-79 | rows with distinct ids and positive quantities load as a valid cart |
| CartContext.AddWritesOnlyForUser | src/contexts/CartContext.tsx:132-140 | a signed-in add issues exactly one write (update or insert); a guest's add issues none |
| CartContext.CartStore.constructor | src/contexts/CartContext.tsx:42-45 | a guest session starts from the local slot, or empty, mirrored |
| CartContext.CartStore.Persist | src/contexts/CartContext.tsx:49-53 | a guest's lines are written to the local slot; a signed-in user's are not |
| CartContext.CartStore.AddItem | src/contexts/CartContext.tsx:125-143 | the lines become AddLines of the old lines, the matching remote write is logged, the invariant is kept and the item count rises by 1 |
| CartContext.CartStore.RemoveItem | src/contexts/CartContext.tsx:145-153 | the lines lose that id, a delete is logged only for a signed-in user with that line, and the invariant is kept |
| CartContext.CartStore.UpdateQuantity | src/contexts/CartContext.tsx:155-168 | a quantity of 0 or below is a removal; otherwise that line's quantity is set and an update logged |
| CartContext.CartStore.ClearCart | src/contexts/CartContext.tsx:170-179 | the lines are emptied, a signed-in user's rows deleted, and the local key removed |
| CartContext.CartStore.SignIn | src/contexts/CartContext.tsx:55-86 | the lines become the loaded rows when the query answers; otherwise they stay |
| CartContext.CartStore.SignOut | src/contexts/CartContext.tsx:42-45 | the lines are reloaded from the local slot |
| Domain.CountStatus | src/pages/AdminDashboard.tsx:136-137 | a status count never exceeds the number of orders |
| Domain.CountTwoStatuses | src/pages/Account.tsx:78-80 | counts of two different statuses add up to at most the number of orders |
| Domain.RoundDiv | src/pages/AdminDashboard.tsx:143 | Math.round of a quotient with a positive divisor: the result is within half of the exact quotient, halves rounding up |
| Domain.RoundDivUnique | src/pages/AdminDashboard.tsx:143 | only one integer is that close to the quotient |
| Domain.RoundDivWithin | src/pages/AdminDashboard.tsx:258 | a quotient between two integers rounds to a value between them |
| Domain.DashboardGate | src/pages/AdminDashboard.tsx:45-55 | the data is fetched iff a user with the role is present; the page redirects iff loading is over and the user or the role is missing (the farmer dashboard's effect at src/pages/FarmerDashboard.tsx:58-69 is the same gate) |
| Checkout.Shipping | src/pages/Checkout.tsx:41 | shipping is 0 iff the subtotal is at least 500, and otherwise 50 |
| Checkout.Tax | src/pages/Checkout.tsx:42 | the tax is 5% of the subtotal rounded to the rupee, halves up |
| Checkout.TaxIsNearestRupee | src/pages/Checkout.tsx:42 | the tax is the only rupee amount within half a rupee of 5% |
| Checkout.TaxNonNegative | src/pages/Checkout.tsx:42 | a non-negative subtotal has a non-negative tax |
| Checkout.GrandTotalBounds | src/pages/Checkout.tsx:41-43 | the grand total is never below the subtotal; above the threshold it adds only the tax, below it at least the ₹50 fee |
| Checkout.ThresholdLowersTotal | src/pages/Checkout.tsx:41-43 | a ₹500 cart costs less in total than a ₹499 cart |
| Checkout.SplitLines | src/pages/Checkout.tsx:65 | splitting text at line breaks gives at least one line |
| Checkout.SplitSingleLine | src/pages/Checkout.tsx:65 | a text without line breaks is one line |
| Checkout.SplitAfterLine | src/pages/Checkout.tsx:65 | a line followed by a break splits off first |
| Checkout.AddressLines | src/pages/Checkout.tsx:65 | the stored address reads back as name, street, "city, state pincode" and "Phone: …" when no field holds a line break |
| Checkout.OrderItemsMatchCart | src/pages/Checkout.tsx:82-87 | one order item per cart line, in order, with the line's quantity and price, no product reference, and amounts summing to the cart's total price |
| Checkout.ShortId | src/pages/Checkout.tsx:100 | the short id is the first eight characters of the id, or all of a shorter id |
| Checkout.OrderPlacedNamesOrder | src/pages/Checkout.tsx:96-102 | the buyer's notification contains the order's short id and links to the order |
| Checkout.PaymentWrites | src/pages/Checkout.tsx:67-102 | the order insert is always first, with the grand total and pending status; all three inserts are issued iff the order is placed |
| Checkout.ConfirmationShowsShippingOnly | src/pages/Checkout.tsx:388-389 | as written, the confirmation step shows ₹50 "Total Paid" after any order with a positive subtotal, not the amount charged |
| Checkout.CheckoutPage.constructor | src/pages/Checkout.tsx:27-39 | the page starts on step 1 with an empty form and no order |
| Checkout.CheckoutPage.EditShipping | src/pages/Checkout.tsx:171-227 | typing on the shipping step changes only the form and keeps the step invariant |
| Checkout.CheckoutPage.HandleShippingSubmit | src/pages/Checkout.tsx:45-52 | from the shipping step, the payment step opens iff every required field is filled; the step invariant (an order id exactly on step 3, a filled form from step 2 on) is kept |
| Checkout.CheckoutPage.BackToShipping | src/pages/Checkout.tsx:289 | "Back" on the payment step returns to step 1, keeping the form and the step invariant |
| Checkout.CheckoutPage.HandlePayment | src/pages/Checkout.tsx:54-114 | on the payment step: without a user nothing is written; otherwise the inserts are PaymentWrites, and only a placed order moves to step 3, records the order id and the amount charged, and clears the cart (its lines emptied, the user's rows deleted, the local key removed); otherwise the cart is untouched; the step invariant is kept |
| CartPage.FreeShippingHint | src/pages/Cart.tsx:156-159 | the hint appears iff the subtotal is below 500 and names the positive amount that reaches 500 |
| CartPage.View | src/pages/Cart.tsx:13 | the empty state is shown iff the cart has no lines |
| CartPage.CartAgreesWithCheckout | src/pages/Cart.tsx:134-158 | the cart page's inline total, shipping label and hint agree with the checkout's pricing |
| CartPage.MinusTakesOneUnit | src/pages/Cart.tsx:92 | "−" takes exactly one unit off the item count, removing a line at quantity 1 |
| CartPage.PlusAddsOneUnit | src/pages/Cart.tsx:99 | "+" adds exactly one unit and keeps every line |
| CartPage.Decrement | src/pages/Cart.tsx:92 | at quantity 1 the line is removed with a delete for a signed-in user, otherwise lowered by one with an update; the user is kept, a guest's lines are mirrored to the local slot, and the invariant is kept |
| CartPage.Increment | src/pages/Cart.tsx:99 | the line is raised by one with an update for a signed-in user; the user is kept, a guest's lines are mirrored to the local slot, and the invariant is kept |
| ProductDetail.CandidateReflectsProduct | src/pages/ProductDetail.tsx:119-129 | the offered line carries the product's id as line and product id, its name, price and unit, and the defaults for a missing image, seller name, location and organic flag |
| ProductDetail.LoadProduct | src/pages/ProductDetail.tsx:43-78 | the product loads iff the query answers a row without error; every failure ends in a non-empty message |
| ProductDetail.FirstMatchSameKeys | src/pages/ProductDetail.tsx:118-129 | matching depends only on ids and product ids |
| ProductDetail.FirstMatchAtEnd | src/pages/ProductDetail.tsx:118-129 | a matching line appended after non-matching ones is the first match |
| ProductDetail.AddTimesToExistingLine | src/pages/ProductDetail.tsx:118-129 | adding n units of a product in the cart raises its line by n |
| ProductDetail.AddTimesNewLine | src/pages/ProductDetail.tsx:118-129 | adding n ≥ 1 units of a new product appends one line holding n |
| ProductDetail.AddTimesWritesCount | src/pages/ProductDetail.tsx:118-129 | `quantity` adds by a signed-in user issue exactly that many inserts or updates, and a guest's issue none |
| ProductDetail.AddTimesWritesUpdatesOnly | src/pages/ProductDetail.tsx:118-129 | when the product is already in a cart with unique ids, every write of the `quantity` adds updates its row and none inserts |
| ProductDetail.QuotientBounds | src/pages/ProductDetail.tsx:202-204 | a mean of values between two bounds lies between them |
| ProductDetail.AverageWithinRatings | src/pages/ProductDetail.tsx:202-204 | the average rating lies between the lowest and highest rating given |
| ProductDetail.SubmitToast | src/pages/ProductDetail.tsx:151-160 | the success toast iff no error; the permission toast only for errors the shared helper also calls permission errors |
| ProductDetail.ProductDetailPage.constructor | src/pages/ProductDetail.tsx:33-35 | quantity 1, no reviews, a fresh five-star form |
| ProductDetail.ProductDetailPage.Decrement | src/pages/ProductDetail.tsx:314 | the quantity falls by one but never below 1 |
| ProductDetail.ProductDetailPage.Increment | src/pages/ProductDetail.tsx:321 | the quantity rises by one |
| ProductDetail.ProductDetailPage.HandleAddToCart | src/pages/ProductDetail.tsx:115-132 | without a product nothing changes; otherwise the cart becomes `quantity` successive adds of the product's line, issuing those adds' writes in order, with a guest's lines mirrored to the local slot and the invariant kept |
| ProductDetail.ProductDetailPage.ReviewsFetched | src/pages/ProductDetail.tsx:80-93 | the reviews are replaced only by rows answered without error |
| ProductDetail.ProductDetailPage.OnReviewInserted | src/pages/ProductDetail.tsx:105 | a new review goes on top |
| ProductDetail.ProductDetailPage.SetRating | src/pages/ProductDetail.tsx:376 | a star click sets the form's rating |
| ProductDetail.ProductDetailPage.SubmitReview | src/pages/ProductDetail.tsx:134-163 | nothing is sent without a user or product id; otherwise the insert carries the form, and only success resets the form |
| Marketplace.FilteredIsSearch | src/pages/Marketplace.tsx:128-132 | a product is listed iff its lower-cased name contains the lower-cased query, in fetched order |
| Marketplace.EmptyQueryListsAll | src/pages/Marketplace.tsx:128-132 | an empty search lists every product |
| Marketplace.CategoryIgnored | src/pages/Marketplace.tsx:131 | the selected category does not change the listing |
| Marketplace.QueryCaseInsensitive | src/pages/Marketplace.tsx:129 | typing the query in another letter case finds the same products |
| Marketplace.SellerIds | src/pages/Marketplace.tsx:79 | the seller ids are exactly those of the listed products, without duplicates |
| Marketplace.AsWrittenImageDiffers | src/pages/Marketplace.tsx:118 | as written, an image-less product's line carries four garbled characters, unlike the product page's and the reloaded cart's wheat ear, while matching the same cart line |
| Marketplace.CandidateImageAgrees | src/pages/Marketplace.tsx:113-123 | with the intended fallback the card's line shows the wheat ear and carries the product id |
| Marketplace.MarketplacePage.constructor | src/pages/Marketplace.tsx:44-49 | no products, no profiles, loading, empty search |
| Marketplace.MarketplacePage.FetchProducts | src/pages/Marketplace.tsx:55-89 | a query error empties the list with its message; a thrown error keeps it; success lists the rows and looks up their sellers, and every new profile key is a listed seller |
| Marketplace.MarketplacePage.HandleAddToCart | src/pages/Marketplace.tsx:111-125 | the cart adds the card's line (one more unit when ids are unique), the add's remote write logged, a guest's lines mirrored to the local slot, invariant kept |
| NotificationsDropdown.BadgeText | src/components/layout/NotificationsDropdown.tsx:155-162 | no badge at 0, "9+" above 9, otherwise the single digit that reads back as the count |
| NotificationsDropdown.InsertCount | src/components/layout/NotificationsDropdown.tsx:84 | a new notification on top adds one to the badge iff unread |
| NotificationsDropdown.ReplaceKeepsOthers | src/components/layout/NotificationsDropdown.tsx:91-93 | an update keeps the length and every entry with another id, replaces entries with the id, and is a no-op for an unknown id |
| NotificationsDropdown.RemoveEffect | src/components/layout/NotificationsDropdown.tsx:100 | a delete keeps exactly the entries with another id, in order, and never raises the badge |
| NotificationsDropdown.MarkReadCount | src/components/layout/NotificationsDropdown.tsx:112-114 | marking one read takes off the badge exactly the unread entries with that id |
| NotificationsDropdown.MarkReadIdempotent | src/components/layout/NotificationsDropdown.tsx:110-125 | marking read twice is marking once, for one entry and for all |
| NotificationsDropdown.MarkAllClearsBadge | src/components/layout/NotificationsDropdown.tsx:124 | "mark all read" empties the badge and keeps every entry's id and message |
| NotificationsDropdown.FormatTime | src/components/layout/NotificationsDropdown.tsx:132-145 | "just now" under a minute, whole minutes under an hour, hours under a day, days under a week, the date from then on, each count bracketing the age |
| NotificationsDropdown.IconFor | src/components/layout/NotificationsDropdown.tsx:17-29 | orders get the package icon; unknown types the info icon |
| NotificationsDropdown.NotificationsDropdown.constructor | src/components/layout/NotificationsDropdown.tsx:46-47 | an empty, loading list |
| NotificationsDropdown.NotificationsDropdown.SessionChanged | src/components/layout/NotificationsDropdown.tsx:52-57 | signing out empties the list; a user starts a fetch |
| NotificationsDropdown.NotificationsDropdown.Fetched | src/components/layout/NotificationsDropdown.tsx:59-73 | the list is replaced only by rows answered without error |
| NotificationsDropdown.NotificationsDropdown.OnInsert | src/components/layout/NotificationsDropdown.tsx:83-85 | the new entry goes on top and the badge grows iff it is unread |
| NotificationsDropdown.NotificationsDropdown.OnUpdate | src/components/layout/NotificationsDropdown.tsx:90-94 | entries with the payload's id are replaced in place |
| NotificationsDropdown.NotificationsDropdown.OnDelete | src/components/layout/NotificationsDropdown.tsx:99-101 | entries with the id go and the badge does not grow |
| NotificationsDropdown.NotificationsDropdown.MarkAsRead | src/components/layout/NotificationsDropdown.tsx:110-115 | the row update is logged and the entry marked read; the badge does not grow |
| NotificationsDropdown.NotificationsDropdown.MarkAllAsRead | src/components/layout/NotificationsDropdown.tsx:117-125 | nothing without a user; otherwise one update and an empty badge |
| NotificationsDropdown.NotificationsDropdown.DeleteNotification | src/components/layout/NotificationsDropdown.tsx:127-130 | the row delete is logged and the entries with the id removed |
| AdminDashboard.AvgOrderValueWithinOrders | src/pages/AdminDashboard.tsx:143 | the average order value is 0 without orders and otherwise lies between the smallest and largest order |
| AdminDashboard.StatusPercentageBounds | src/pages/AdminDashboard.tsx:258 | each share is between 0 and 100, 0 for an absent status and 100 for a status every order has |
| AdminDashboard.PendingAndCompletedWithinOrders | src/pages/AdminDashboard.tsx:136-137 | pending plus completed never exceed all orders |
| AdminDashboard.BadgeAndBarAgree | src/pages/AdminDashboard.tsx:107-116 | badge and bar colours agree on the five statuses; an unknown status gets the pending badge but the red bar |
| AdminDashboard.OfferedActions | src/pages/AdminDashboard.tsx:420-446 | "confirm" iff pending, "ship" iff confirmed, "cancel" iff neither cancelled nor delivered, no button twice |
| AdminDashboard.ActionsNeverDeliver | src/pages/AdminDashboard.tsx:420-446 | every button changes the status, none sets delivered, and cancelled or delivered orders offer none |
| AdminDashboard.NoHistoryDelivers | src/pages/AdminDashboard.tsx:420-446 | no sequence of clicks brings an order to delivered |
| AdminDashboard.PendingReachesShipped | src/pages/AdminDashboard.tsx:420-436 | a pending order is confirmed, then shipped, in two clicks |
| AdminDashboard.MutationOutcome | src/pages/AdminDashboard.tsx:83-88 | success iff no error; a failure shows the error's message or the non-empty fallback |
| AdminDashboard.AdminDashboard.constructor | src/pages/AdminDashboard.tsx:37-42 | empty lists, loading |
| AdminDashboard.AdminDashboard.FetchData | src/pages/AdminDashboard.tsx:57-77 | each list is replaced only when its query answers data |
| AdminDashboard.AdminDashboard.UpdateOrderStatus | src/pages/AdminDashboard.tsx:92-105 | an offered action writes its status, never delivered nor the current one; success asks for a refetch |
| AdminDashboard.AdminDashboard.HandleDeleteProduct | src/pages/AdminDashboard.tsx:79-90 | nothing without confirmation; otherwise the delete is logged and the toast follows the error |
| FarmerDashboard.ParseNumber | src/pages/FarmerDashboard.tsx:143-145 | a number is read only from non-empty text |
| FarmerDashboard.ParseNumberRoundTrip | src/pages/FarmerDashboard.tsx:218-220 | a number shown in the form reads back as itself |
| FarmerDashboard.PayloadOf | src/pages/FarmerDashboard.tsx:139-148 | empty description and location are stored as null, non-empty ones as typed; name, unit and organic flag are copied |
| FarmerDashboard.EditRoundTrip | src/pages/FarmerDashboard.tsx:214-225 | opening a product for editing and saving unchanged writes it back, except that empty texts become null and a missing organic flag false |
| FarmerDashboard.EditedFormFilled | src/pages/FarmerDashboard.tsx:214-225 | a product opened for editing passes the required-field check iff it has a name |
| FarmerDashboard.EmptyFormRejected | src/pages/FarmerDashboard.tsx:202-212 | the reset form has unit "kg", is not organic, stores no description or location, and fails the add check |
| FarmerDashboard.DecideAdd | src/pages/FarmerDashboard.tsx:131-148 | an insert happens iff a user is present and name, price and quantity are non-empty, and then carries the form's payload under the user's id |
| FarmerDashboard.Take | src/pages/FarmerDashboard.tsx:90 | a limit keeps the first n rows, all of them when there are fewer |
| FarmerDashboard.PushNotification | src/pages/FarmerDashboard.tsx:120 | the realtime insert puts the notification on top and keeps at most five |
| FarmerDashboard.PushKeepsNewest | src/pages/FarmerDashboard.tsx:120 | after an insert the rest are the four newest old entries, in order, and the badge grows by at most one |
| FarmerDashboard.PushIsTopThenTake | src/pages/FarmerDashboard.tsx:120 | prepend-then-cut equals the new entry before the first four old ones |
| FarmerDashboard.CardsWithinLists | src/pages/FarmerDashboard.tsx:254-255 | the pending and unread cards never exceed the ten orders and five notifications fetched |
| FarmerDashboard.OrderStatusIcon | src/pages/FarmerDashboard.tsx:227-235 | unknown statuses get the red cross; only delivered gets the green tick |
| FarmerDashboard.FarmerDashboard.constructor | src/pages/FarmerDashboard.tsx:41-56 | empty lists, loading, no dialog, the reset form |
| FarmerDashboard.FarmerDashboard.FetchData | src/pages/FarmerDashboard.tsx:71-108 | nothing without a user; otherwise each list is replaced when answered, orders cut to 10 and notifications to 5 |
| FarmerDashboard.FarmerDashboard.OnNotificationInsert | src/pages/FarmerDashboard.tsx:118-123 | the list becomes the pushed window and the title is toasted |
| FarmerDashboard.FarmerDashboard.EditForm | src/pages/FarmerDashboard.tsx:290 | typing changes only the form |
| FarmerDashboard.FarmerDashboard.ResetForm | src/pages/FarmerDashboard.tsx:202-212 | the form becomes the empty form |
| FarmerDashboard.FarmerDashboard.StartEdit | src/pages/FarmerDashboard.tsx:214-225 | the form shows the product and the product is remembered |
| FarmerDashboard.FarmerDashboard.CloseEdit | src/pages/FarmerDashboard.tsx:496 | closing the edit dialog forgets the product and resets the form |
| FarmerDashboard.FarmerDashboard.HandleAddProduct | src/pages/FarmerDashboard.tsx:131-159 | nothing without a user; missing fields are refused with a toast; otherwise the insert is logged and only success closes the dialog and resets the form |
| FarmerDashboard.FarmerDashboard.HandleUpdateProduct | src/pages/FarmerDashboard.tsx:161-187 | nothing unless editing; otherwise the form is written over that product without a required-field check, and only success closes and resets |
| FarmerDashboard.FarmerDashboard.HandleDeleteProduct | src/pages/FarmerDashboard.tsx:189-200 | nothing without confirmation; otherwise the delete is logged and the toast follows the error |
| Account.StatsOf | src/pages/Account.tsx:78-80 | total is the number of orders, and delivered plus pending never exceed it |
| Account.FetchOrders | src/pages/Account.tsx:55-87 | success shows the rows with fresh counters; a policy denial shows no orders but keeps the counters; another error keeps both and toasts; nothing without a user |
| Account.FetchKeepsStatsMatch | src/pages/Account.tsx:67-81 | a fetch keeps the counters describing the list unless a denial hides listed orders |
| Account.DenialHidesCountedOrders | src/pages/Account.tsx:68-70 | a denial after orders were shown empties the list while the counters still count them |
| Account.FirstFetchMatches | src/pages/Account.tsx:44 | the first fetch always leaves matching counters |
| Account.PrimaryRole | src/pages/Account.tsx:138-140 | Admin iff admin; Farmer iff farmer and not admin; Agronomist iff agronomist and neither; Buyer otherwise |
| Account.SellerBadgeAndTitle | src/pages/Account.tsx:166 | "Verified Seller" follows the farmer role: every Farmer title carries it, and an admin who farms is titled Admin and still badged |
| Account.OrderStatusIcon | src/pages/Account.tsx:97-106 | unknown statuses get the grey clock |
| Account.StatusBadge | src/pages/Account.tsx:108-117 | unknown statuses get the muted badge |
| Account.IconAndBadgeAgree | src/pages/Account.tsx:97-117 | icon and badge fall back together and agree on delivered and cancelled |
| RealtimeNotifications.Channels | src/hooks/useRealtimeNotifications.ts:20-177 | no channel for a guest; the order and review channels iff farmer; the order-update channel iff buyer |
| RealtimeNotifications.StatusMessage | src/hooks/useRealtimeNotifications.ts:152-159 | each of confirmed, shipped, delivered and cancelled has its sentence; any other status is named after "Order status updated to " |
| RealtimeNotifications.StatusMessagesDistinct | src/hooks/useRealtimeNotifications.ts:152-159 | different statuses give different messages, and an unlisted status appears in its message |
| RealtimeNotifications.OrderUpdateEmission | src/hooks/useRealtimeNotifications.ts:146-173 | a notification iff the old status differs from the new one, for the user, with the status message and the order reference |
| RealtimeNotifications.RepeatedUpdateIsSilent | src/hooks/useRealtimeNotifications.ts:151 | a changed status notifies; the same status again does not |
| RealtimeNotifications.ProductIdsForLookup | src/hooks/useRealtimeNotifications.ts:52 | the lookup ids are present, non-empty ids of the order's lines |
| RealtimeNotifications.ProductIdsComplete | src/hooks/useRealtimeNotifications.ts:52 | every present, non-empty id of the order is looked up |
| RealtimeNotifications.FilterNonEmpty | src/hooks/useRealtimeNotifications.ts:66 | the products query answers rows iff some product passes its filter |
| RealtimeNotifications.NewOrderMessageCarriesCount | src/hooks/useRealtimeNotifications.ts:72 | the new-order message determines the count it carries |
| RealtimeNotifications.NewOrderEmission | src/hooks/useRealtimeNotifications.ts:36-84 | a notification iff both lookups succeed and one of the farmer's products is among the order's lines; it counts them (at least one) |
| RealtimeNotifications.OwnProductAnnounced | src/hooks/useRealtimeNotifications.ts:51-79 | an order holding one of the farmer's products is announced when both lookups succeed |
| RealtimeNotifications.NewReviewEmission | src/hooks/useRealtimeNotifications.ts:99-131 | a notification iff the lookup succeeds and finds exactly one own product with that id; it names that product and the rating |
| RealtimeNotifications.ReviewMessageNamesProduct | src/hooks/useRealtimeNotifications.ts:120 | the review message contains the product's name |
| RealtimeNotifications.OthersReviewsSilent | src/hooks/useRealtimeNotifications.ts:102-114 | a review of another seller's product is never announced |
| RealtimeNotifications.EmissionsAddressUser | src/hooks/useRealtimeNotifications.ts:68-166 | every notification the hook writes is addressed to the signed-in user |
| SupabaseHelpers.PolicyDenialIsPermissionError | src/lib/supabase-helpers.ts:24-34 | whatever the pages' inline test calls a denial, the shared helper does too |
| SupabaseHelpers.PolicyDenialIsNarrower | src/lib/supabase-helpers.ts:29 | a row hidden by row-level security is a denial for the helper but not for the inline test |
| SupabaseHelpers.PermissionMessageNamesContext | src/lib/supabase-helpers.ts:39-41 | the message contains the denied action, and different actions give different messages |
| SupabaseHelpers.ShapeResult | src/lib/supabase-helpers.ts:47-80 | never fails; data only on success; flagged as denied iff a returned error is a permission error, with the friendly message; a thrown error gives the generic message |
| SupabaseHelpers.SafeWrappersMessages | src/lib/supabase-helpers.ts:47-156 | the defaults name reading for selects and changing for mutations; a given context is used as is |
| SupabaseHelpers.FetchPublicProfile | src/lib/supabase-helpers.ts:173-182 | a profile iff the lookup answers a row without error |
| SupabaseHelpers.ProfilesByUserLookup | src/lib/supabase-helpers.ts:196-199 | every row's user is a key, and each key maps to the last row for that user |
| SupabaseHelpers.FetchPublicProfiles | src/lib/supabase-helpers.ts:187-202 | no query for no ids; an empty map on failure; otherwise the requested users' profiles keyed by user id |

## Left out

- The network, the database, realtime channels, `localStorage`, JSON, toasts and navigation
  are not executed. Their answers are parameters, and their writes are logged as values.
- Checkout.Tax and AdminDashboard.StatusPercentage use exact rational arithmetic with
  half-up rounding. The source uses floating point: `Math.round(totalPrice * 0.05)` and
  `Math.round(count / n * 100)`. Binary rounding of 0.05 is not modelled.
- FarmerDashboard.ParseNumber reads whole decimal numbers only. `parseFloat` of a
  fractional price, and `parseInt` of text with trailing characters, are not modelled. Prices
  are whole rupees throughout.
- Amounts formatted with `toLocaleString("en-IN")`, dates formatted with
  `toLocaleDateString`, and the upper-cased short order id on the confirmation and account
  pages are display formatting and are not modelled.
- The star rendering of the average rating (`Math.floor`, `toFixed(1)`) is not modelled.
- The account page's avatar emoji and separators are not modelled. The notification colour
  classes and the analytics constants of the admin dashboard are not modelled either.
- RealtimeNotifications.StatusMessage looks statuses up in a fixed set. JavaScript's
  prototype keys, such as a status named "constructor", are not modelled.
- The product page's `fetchProduct` returns early when the route has no id, leaving the page
  loading. This is not modelled: ProductDetail.LoadProduct starts from a query's answer.
- `fetchPublicProfile` and `fetchPublicProfiles` are modelled on the answer they get. A
  lookup that throws instead of answering is not modelled.
- Effect ordering and concurrency are not modelled: two overlapping fetches, a refetch racing
  a local update, or an add whose insert reloads the cart later. The realtime channels'
  subscription and removal lifecycle is left out too.
- FarmerDashboard.FarmerDashboard.HandleUpdateProduct has no required-field check, as in the
  source. An edited form with an empty price writes a missing number.
- Marketplace.MarketplacePage.HandleAddToCart adds the line with the intended wheat-ear
  fallback image (`Marketplace.CartCandidate`). The program as written adds the garbled
  fallback of Marketplace.tsx:118; that line is `Marketplace.CartCandidateAsWritten` (see
  Findings).
- Case-insensitive search and the permission tests lower-case ASCII letters only. JavaScript's
  `toLowerCase` also folds non-ASCII letters (accented Latin, Greek, Cyrillic and others); that
  folding is not modelled.
- The pages' loading skeletons and layout are not modelled.

## Findings

| source | as written | input that shows it | evidently intended | confidence | as-written member | corrected member |
|---|---|---|---|---|---|---|
| src/pages/Marketplace.tsx:118 | the fallback image is the wheat-ear emoji's UTF-8 bytes decoded as Windows-1252, four garbled characters | any product whose `image_url` is null or empty | the wheat ear 🌾, as on the product page and in a reloaded cart row | high, not executed | Marketplace.AsWrittenImageDiffers | Marketplace.CandidateImageAgrees |
| src/pages/Checkout.tsx:388-389 | "Total Paid" shows `grandTotal` recomputed from the cart after `clearCart`, so it shows the ₹50 shipping fee of an empty cart | one ₹100 line: ₹155 is charged (100 + 50 + 5), the confirmation shows ₹50 | the amount charged for the order | high, not executed | Checkout.ConfirmationShowsShippingOnly | Checkout.CheckoutPage.HandlePayment |
