# FitPass in Dafny

FitPass is a gym-pass web application. Members browse a catalog of gyms, book
time slots and show a QR access pass. They shop for fitness products with a
cart, track workouts, and complete an onboarding questionnaire that an Express
server stores.

This project models the application's logic in Dafny and proves properties of it:

- the client's cart store;
- the gym and product filter pipelines;
- slot booking and the access pass;
- the cart summary and checkout page;
- the workout list and the live workout tracker;
- the two onboarding wizards and the profile page's membership rules;
- the gym filter panel, the product tile and the range slider;
- the server's onboarding controller.

Each source file keeps its own form in the model:

- Pure expressions such as filter chains, lookups, labels and prices are Dafny functions, and lemmas state what they mean.
- Components whose handlers update state step by step are classes. Their methods change the fields, and each method's `ensures` ties the new state to the old one.
- Each class has a `Valid()` invariant that its constructor establishes and every handler keeps.

Modules:

- `Common`: the JavaScript array and string methods used by the components.
- `Types`: the data records.
- `Catalog`: the mock gyms and products.
- `UriComponent`: `encodeURIComponent` and its inverse, for the QR pass URL.
- One module per component, named after it.

Conventions:

- Money, ratings and percentages are exact `real` numbers.
- Quantities and counters are `int`.
- Timers, random ids, the clock and awaited network calls become explicit events or parameters:
  - `TimerFires`, `ResetTimerFires`, `Tick`;
  - `FinishBooking(result)`;
  - `HandleSubmit(postSucceeded)`;
  - `randomId`, `now`, `today`;
  - a `StoreFault` on the server.
- An effect that runs after the render showing a change is its own event. The cart's subtotal effect is `RecomputeSubtotal`; until it runs, `subtotalStale` marks the subtotal as the one from before the change.

## Model

| member | source | states |
|---|---|---|
| Common.Filter | client/src/pages/GymsListPage.tsx:34-36 | `Array.prototype.filter`: the result is no longer than the input and holds exactly the input's elements that pass |
| Common.FilterFilter | client/src/pages/GymsListPage.tsx:19-42 | two filters in a row equal one filter by the conjunction of their predicates |
| Common.FilterIsSubsequence | client/src/pages/MarketplacePage.tsx:26-45 | filtering keeps the survivors in their original order |
| Common.FindIndex | client/src/context/CartContext.tsx:54-56 | `findIndex` is -1 exactly when no element passes; otherwise it is the first position whose element passes |
| Common.Find | client/src/context/CartContext.tsx:45-47 | `find` returns the first element that passes, or nothing exactly when none passes |
| Common.IndexOf | client/src/pages/ProfilePage.tsx:215 | `indexOf` is -1 exactly when the element is absent; otherwise it is the first position holding it |
| Common.Dedupe | client/src/pages/MarketplacePage.tsx:23 | the spread of a `Set` holds every element once and nothing else |
| Common.DedupeFirstOccurrenceOrder | client/src/components/gym/SlotBooking.tsx:19 | the spread of a `Set` lists elements in the order of their first occurrence |
| Common.Take | client/src/components/gym/QRPass.tsx:43 | `substring(0, n)` is a prefix of length min(n, length) |
| Catalog.MockCatalogIdsDistinct | client/src/data/mockData.ts:5-170 | the mock gyms have distinct ids, and so do the mock products |
| CartStore.FindProductById | client/src/context/CartContext.tsx:45-47 | the product found has the id and is in the catalog; nothing is found exactly when no product has the id |
| CartStore.ItemIndexFindsItem | client/src/context/CartContext.tsx:54-56 | `findIndex` is non-negative exactly when the cart holds the id; with distinct ids it is the one position holding it |
| CartStore.AddItemExisting | client/src/context/CartContext.tsx:59-65 | `AddItem`: adding an id already in the cart adds the quantity to that item and leaves every other item and the length unchanged |
| CartStore.AddItemNew | client/src/context/CartContext.tsx:66-72 | `AddItem`: adding a new id appends exactly one item `{productId, quantity, product}` after the old items |
| CartStore.AddItemKeepsDistinct | client/src/context/CartContext.tsx:49-79 | `addToCart` keeps product ids distinct |
| CartStore.RemoveItemsKeepsDistinct | client/src/context/CartContext.tsx:81-86 | `removeFromCart` keeps product ids distinct |
| CartStore.SubsequenceKeepsDistinct | client/src/context/CartContext.tsx:84 | a list obtained by deleting items from one with distinct ids has distinct ids |
| CartStore.UpdateItemsKeepsDistinct | client/src/context/CartContext.tsx:88-102 | `updateQuantity` keeps product ids distinct |
| CartStore.RemoveItemsSpec | client/src/context/CartContext.tsx:81-86 | `RemoveItems`: removal keeps exactly the items with other ids, in order |
| CartStore.SetQuantitySpec | client/src/context/CartContext.tsx:94-101 | a positive update keeps the length and ids, sets the quantity of the matching items and changes nothing else |
| CartStore.UpdateNonPositiveIsRemove | client/src/context/CartContext.tsx:88-92 | a quantity ≤ 0 is a removal, so no item with that id is left |
| CartStore.SubtotalAppend | client/src/context/CartContext.tsx:37-43 | appending an item raises the `reduce` subtotal by price × quantity |
| CartStore.SubtotalUpdate | client/src/context/CartContext.tsx:37-43 | replacing one item moves the subtotal by the change of its line total |
| CartStore.AddItemSubtotal | client/src/context/CartContext.tsx:37-79 | adding `q` of a product raises the subtotal by q × the price of the snapshot already in the cart, or of the added product when the id is new |
| CartStore.RemoveItemsSubtotal | client/src/context/CartContext.tsx:37-86 | with distinct ids, removing an id takes exactly its line total off the subtotal |
| CartStore.AddItemKeepsSnapshots | client/src/context/CartContext.tsx:49-72 | every item's product snapshot stays the product its id names when the added product matches the id |
| CartStore.UpdateItemsKeepsSnapshots | client/src/context/CartContext.tsx:88-102 | quantity updates keep the product snapshots matching their ids |
| CartStore.ExampleSubtotal | client/src/context/CartContext.tsx:38-41 | two protein shakes (8.99) and one pair of gloves (24.99) make a subtotal of exactly 42.97 |
| CartStore.CartStore.constructor | client/src/context/CartContext.tsx:17-21 | the cart starts empty, with pickup and subtotal 0, and the subtotal is current |
| CartStore.CartStore.RecomputeSubtotal | client/src/context/CartContext.tsx:36-43 | the effect on `cart.items` sets the subtotal to Σ price × quantity of the items, changes nothing else and ends the stale window |
| CartStore.CartStore.AddToCart | client/src/context/CartContext.tsx:49-79 | an unknown product id leaves the cart unchanged; otherwise only the items change, to `AddItem(...)` with the catalog product, and the subtotal is stale until the effect runs; ids stay distinct |
| CartStore.CartStore.RemoveFromCart | client/src/context/CartContext.tsx:81-86 | only the items change, to the filtered list; the subtotal is stale until the effect runs |
| CartStore.CartStore.UpdateQuantity | client/src/context/CartContext.tsx:88-102 | only the items change, to `UpdateItems(...)` (removal for q ≤ 0); the subtotal is stale until the effect runs |
| CartStore.CartStore.SetDeliveryOption | client/src/context/CartContext.tsx:104-109 | only the delivery option changes; the items are untouched, so no effect is pending because of it |
| CartStore.CartStore.ClearCart | client/src/context/CartContext.tsx:111-117 | the cart becomes the empty pickup cart with subtotal 0, which the effect that follows leaves as it is |
| CartStore.AddToCartThenEffect | client/src/context/CartContext.tsx:36-79 | between `addToCart` and its effect the old subtotal shows; after the effect the items are `AddItem(...)` and the subtotal is theirs |
| CartStore.AddItemKeepsPositive | client/src/context/CartContext.tsx:49-72 | adding a positive quantity keeps every line at one unit or more |
| CartStore.UpdateItemsKeepsPositive | client/src/context/CartContext.tsx:88-102 | any quantity update keeps every line at one unit or more, since q ≤ 0 removes the line |
| GymsList.FilterStepsIsConjunction | client/src/pages/GymsListPage.tsx:17-42 | `FilterSteps`: the guarded chain of four filters equals one filter by their conjunction, so guards and order do not matter |
| GymsList.EmptySearchPassesAll | client/src/pages/GymsListPage.tsx:19 | an empty search matches every gym |
| GymsList.EmptyAmenitiesPassAll | client/src/pages/GymsListPage.tsx:28-32 | an empty amenity list filters nothing |
| GymsList.PipelineMembers | client/src/pages/GymsListPage.tsx:16-54 | the sort adds and drops nothing: a gym is shown exactly when it is in the catalog and passes all four filters |
| GymsList.PipelineMembership | client/src/pages/GymsListPage.tsx:16-54 | `Pipeline`: a gym is shown exactly when it is in the catalog, matches the search, has all selected amenities, lies in [min, max] inclusive and has the category when one is set |
| GymsList.CrossedPriceRangeIsEmpty | client/src/pages/GymsListPage.tsx:34-36 | min > max shows no gym |
| GymsList.PipelineShape | client/src/pages/GymsListPage.tsx:17-51 | the result is a permutation of the filtered catalog, has no duplicates, and for any sort key other than price or rating equals the filtered catalog in catalog order |
| GymsList.PipelineOrder | client/src/pages/GymsListPage.tsx:44-51 | `'price'` sorts by non-decreasing price and `'rating'` by non-increasing rating |
| GymsList.Comparator | client/src/pages/GymsListPage.tsx:44-51 | any sort value other than `price` and `rating` gives every gym key 0, the comparator that returns 0 |
| GymsList.InsertPermutation | client/src/pages/GymsListPage.tsx:44-51 | one insertion step of the stable sort adds exactly the inserted gym |
| GymsList.SortGymsPermutation | client/src/pages/GymsListPage.tsx:44-51 | `SortGyms`: the sort is a permutation |
| GymsList.InsertSorted | client/src/pages/GymsListPage.tsx:44-51 | inserting into a sorted list keeps it sorted by the comparator's key |
| GymsList.SortGymsSorted | client/src/pages/GymsListPage.tsx:44-51 | the sort's output is ordered by the comparator's key |
| GymsList.InsertNoDup | client/src/pages/GymsListPage.tsx:44-51 | inserting a new gym keeps a list free of duplicates |
| GymsList.SortGymsNoDup | client/src/pages/GymsListPage.tsx:44-51 | sorting keeps a list free of duplicates |
| GymsList.SortGymsEqualKeys | client/src/pages/GymsListPage.tsx:50 | with the comparator returning 0 the stable sort is the identity |
| GymsList.InsertStable | client/src/pages/GymsListPage.tsx:44-51 | inserting keeps the relative order of gyms with equal keys |
| GymsList.SortGymsStable | client/src/pages/GymsListPage.tsx:44-51 | the sort is stable: the gyms with any one key appear in input order |
| GymsList.InitialFiltersKeepAll | client/src/pages/GymsListPage.tsx:9-14 | the initial filters keep every gym priced within [0, 200] |
| GymsList.InitialFiltersShowAll | client/src/pages/GymsListPage.tsx:9-54 | the initial filters show the whole mock catalog in catalog order |
| Marketplace.CategoryColumn | client/src/pages/MarketplacePage.tsx:23 | `products.map(p => p.category)` keeps length and positions |
| Marketplace.CategoriesSpec | client/src/pages/MarketplacePage.tsx:23 | `'all'` first, then each product category once, in order of first occurrence |
| Marketplace.FilterProductsIsConjunction | client/src/pages/MarketplacePage.tsx:25-48 | the guarded chain equals one filter by the conjunction of search, category and stock |
| Marketplace.FilterProductsSpec | client/src/pages/MarketplacePage.tsx:26-45 | a product is shown exactly when it matches the search (by name or description), has the chosen category (any for `'all'`) and is in stock when the flag is set; order is kept |
| Marketplace.DefaultFiltersShowAll | client/src/pages/MarketplacePage.tsx:17-21 | the default and reset filters `{'', 'all', false}` show the whole catalog |
| Marketplace.CartBadge | client/src/pages/MarketplacePage.tsx:71-74 | the badge shows exactly when the cart has items |
| Marketplace.TotalQuantityAppend | client/src/pages/MarketplacePage.tsx:73 | appending an item raises the badge sum by its quantity |
| Marketplace.TotalQuantityUpdate | client/src/pages/MarketplacePage.tsx:73 | replacing one item moves the badge sum by the change of its quantity |
| Marketplace.AddToCartRaisesBadge | client/src/pages/MarketplacePage.tsx:50-52 | adding `q` of a product to the cart raises the badge count by exactly `q` |
| SlotBooking.DateColumn | client/src/components/gym/SlotBooking.tsx:19 | `slots.map(s => s.date)` keeps length and positions |
| SlotBooking.DateOptionsSpec | client/src/components/gym/SlotBooking.tsx:19 | `DateOptions`: the date options are the slot dates, each once, in order of first occurrence |
| SlotBooking.FilteredSlotsSpec | client/src/components/gym/SlotBooking.tsx:14-21 | `FilteredSlots`: the shown slots are exactly those on the selected date, in order; the first slot is shown under the initial date |
| SlotBooking.AvailabilityLabel | client/src/components/gym/SlotBooking.tsx:122-126 | `Full` iff booked ≥ capacity, `Almost Full` iff 0.8·capacity ≤ booked < capacity, else `Available` |
| SlotBooking.PercentBelow | client/src/components/gym/SlotBooking.tsx:47-49 | for a positive capacity, comparing the booked percentage with a threshold is comparing cross products |
| SlotBooking.ColourThresholds | client/src/components/gym/SlotBooking.tsx:46-51 | `AvailabilityColour`: for a positive capacity: green iff booked < 50%, yellow iff 50% ≤ booked < 80%, red iff booked ≥ 80% |
| SlotBooking.ColourAgreesWithLabel | client/src/components/gym/SlotBooking.tsx:46-126 | for a non-negative capacity the dot is red exactly when the label is not `Available`, including the zero-capacity division |
| SlotBooking.ExampleSlot101 | client/src/components/gym/SlotBooking.tsx:46-51 | the mock slot with 8 of 20 booked is green and `Available` |
| SlotBooking.ButtonEnabled | client/src/components/gym/SlotBooking.tsx:133-151 | `ButtonFor`: a slot's button is clickable exactly when the slot is not the booked one, has room and no booking is in flight; it reads `Booked Successfully` exactly for the booked slot |
| SlotBooking.AtMostOneBooked | client/src/components/gym/SlotBooking.tsx:133-141 | with distinct slot ids at most one card shows `Booked Successfully` |
| SlotBooking.SlotBookingState.constructor | client/src/components/gym/SlotBooking.tsx:13-17 | the first slot's date (or `''`) is selected; nothing loads, nothing is booked, no error |
| SlotBooking.SlotBookingState.ChangeDate | client/src/components/gym/SlotBooking.tsx:23-26 | the date changes and the error clears |
| SlotBooking.SlotBookingState.ClickBook | client/src/components/gym/SlotBooking.tsx:28-33 | on a button of the selected date's list: a disabled button does nothing; otherwise loading starts, the error clears and the slot id, of a slot with room on that date, is requested |
| SlotBooking.SlotBookingState.FinishBooking | client/src/components/gym/SlotBooking.tsx:28-43 | for the request of the last enabled click, still loading: loading ends; a booking marks that slot booked, no booking sets the failure message, a throw sets the error message |
| SlotBooking.BookedSlotHadRoom | client/src/components/gym/SlotBooking.tsx:28-40 | the slot marked booked is a listed slot that had room when its button was clicked |
| QRPass.Payload | client/src/components/gym/QRPass.tsx:17 | the payload starts with the fixed prefix and has the summed length of its parts |
| QRPass.PayloadMentionsAll | client/src/components/gym/QRPass.tsx:17 | the booking id, gym name and date each sit at their fixed place in the payload and so occur in it |
| QRPass.QrUrl | client/src/components/gym/QRPass.tsx:18-19 | the image URL is the QR service prefix followed by the encoded payload, with no `&`, `#` or space after the prefix |
| QRPass.QrUrlCarriesPayload | client/src/components/gym/QRPass.tsx:17-19 | decoding the URL's `data` parameter gives back the pass payload |
| QRPass.QrUrlInjective | client/src/components/gym/QRPass.tsx:18-19 | different payloads give different image URLs |
| UriComponent.HexDigit | client/src/components/gym/QRPass.tsx:18 | an escape's digit is an upper-case hex digit that reads back as its value |
| UriComponent.EncodeUriComponent | client/src/components/gym/QRPass.tsx:18 | `encodeURIComponent` output holds only unreserved characters and `%`, and is at least as long as its input |
| UriComponent.Utf8RoundTrip | client/src/components/gym/QRPass.tsx:18 | a code point's UTF-8 bytes announce their own number and read back as the code point |
| UriComponent.ReadBytesEscapes | client/src/components/gym/QRPass.tsx:18 | the `%XX` escapes of a byte sequence read back as those bytes |
| UriComponent.DecodeEscapeUtf8 | client/src/components/gym/QRPass.tsx:18 | decoding one character's escapes gives the character and consumes exactly the escapes |
| UriComponent.EncodeDecodeRoundTrip | client/src/components/gym/QRPass.tsx:18 | `decodeURIComponent(encodeURIComponent(s))` is `s` |
| UriComponent.EncodeInjective | client/src/components/gym/QRPass.tsx:18 | different strings have different encodings |
| QRPass.SlotFor | client/src/components/gym/QRPass.tsx:22 | the pass's slot is the first slot with the booking's slot id, or none exactly when no slot has it |
| QRPass.TimeRow | client/src/components/gym/QRPass.tsx:93-98 | the time row shows exactly when the slot was found |
| QRPass.HeaderId | client/src/components/gym/QRPass.tsx:43 | the header id is the booking id's first min(8, length) characters |
| QRPass.MemberId | client/src/components/gym/QRPass.tsx:78 | the member row is the user id's first min(8, length) characters |
| GymDetail.FindGym | client/src/pages/GymDetailPage.tsx:29-34 | nothing is looked up for an empty id; otherwise the first catalog gym with the id, or none exactly when no gym has it |
| GymDetail.BookingDate | client/src/pages/GymDetailPage.tsx:62 | the booking date is either the current time or the non-empty date of a slot with the id |
| GymDetail.NewBooking | client/src/pages/GymDetailPage.tsx:58-65 | the record has the random id, the gym id, the slot id, an empty user id and status confirmed |
| GymDetail.BookingDateSpec | client/src/pages/GymDetailPage.tsx:62 | for the first slot with the id, the date is that slot's date when it is non-empty and the current time when it is empty |
| GymDetail.BookingDateFallback | client/src/pages/GymDetailPage.tsx:62 | with no matching slot the date is the current time |
| GymDetail.BookedPassShowsSlot | client/src/pages/GymDetailPage.tsx:54-69 | a booking of a listed slot shows that slot's times on the pass, an empty member id, and a payload containing the booking id |
| GymDetail.RelatedGymsSpec | client/src/pages/GymDetailPage.tsx:282-284 | `RelatedGyms`: at most two related gyms, none of them the current one, in catalog order |
| GymDetail.RelatedOfThree | client/src/pages/GymDetailPage.tsx:282-284 | among three gyms with distinct ids the related gyms of any one are exactly the other two, in order |
| GymDetail.CatalogRelatedGyms | client/src/pages/GymDetailPage.tsx:282-284 | every mock gym has exactly two related gyms |
| GymDetail.MonthlyPrice | client/src/pages/GymDetailPage.tsx:177 | the monthly price is at least the daily price for non-negative prices |
| GymDetail.CatalogMonthlyPrices | client/src/pages/GymDetailPage.tsx:177 | the mock gyms' monthly prices are 500, 750 and 600 |
| GymDetail.GymDetailState.constructor | client/src/pages/GymDetailPage.tsx:24-26 | no booking and the pass hidden; the invariant (a stored booking is a confirmed one for this gym) holds |
| GymDetail.GymDetailState.BookSlot | client/src/pages/GymDetailPage.tsx:54-69 | the built record is stored (the latest wins) and returned; the pass toggle stays and the invariant holds |
| GymDetail.GymDetailState.ViewPass | client/src/pages/GymDetailPage.tsx:235-252 | on the button shown once a booking exists: the pass is shown and the booking stays |
| GymDetail.GymDetailState.BookAnother | client/src/pages/GymDetailPage.tsx:235-244 | on the button shown once a booking exists: the slot picker is shown and the booking stays |
| GymDetail.BookViewAndBookAnother | client/src/pages/GymDetailPage.tsx:54-252 | booking a listed slot and viewing the pass shows the pass with that slot and hides the picker; "Book Another Slot" brings the picker back, and viewing again shows the same booking |
| GymDetail.ShownPassIsForThisGym | client/src/pages/GymDetailPage.tsx:202-219 | a shown pass is a confirmed booking for the page's gym, and the picker is hidden while it shows |
| CartSummary.DeliveryFee | client/src/components/marketplace/CartSummary.tsx:22 | 5.99 for delivery and 0 for pickup |
| CartSummary.SummaryTotal | client/src/components/marketplace/CartSummary.tsx:23 | the total is at least the subtotal |
| CartSummary.SwitchingDeliveryMovesTotalByFee | client/src/components/marketplace/CartSummary.tsx:22-23 | switching option keeps the subtotal and moves the total by the fee difference, +5.99 from pickup to delivery |
| CartSummary.LineFor | client/src/components/marketplace/CartSummary.tsx:59-61 | a line shows the item's id, quantity and price × quantity |
| CartSummary.View | client/src/components/marketplace/CartSummary.tsx:25-146 | an empty cart shows only the empty state; otherwise the header counts items, there is one line per item, and the fee and total are shown |
| CartSummary.LinesSumToSubtotal | client/src/components/marketplace/CartSummary.tsx:47-61 | the line amounts add up to Σ price × quantity, the subtotal the store holds once its effect has run |
| CartSummary.HeaderCountsDistinctItems | client/src/components/marketplace/CartSummary.tsx:43 | the header counts items, not units (2 for two shakes and one pair of gloves) |
| CartSummary.ClickMinus | client/src/components/marketplace/CartSummary.tsx:71 | `-` asks the store for quantity − 1, which removes the item at quantity 1; the subtotal stays stale until the effect |
| CartSummary.ClickPlus | client/src/components/marketplace/CartSummary.tsx:78 | `+` asks the store for quantity + 1; the subtotal stays stale until the effect |
| CartSummary.ClickRemove | client/src/components/marketplace/CartSummary.tsx:86 | the bin removes the item's id; the subtotal stays stale until the effect |
| CartSummary.ChooseDelivery | client/src/components/marketplace/CartSummary.tsx:102-116 | a radio sets the option only, and the total becomes subtotal + that option's fee |
| CartSummary.MinusAndPlusOnAListedItem | client/src/components/marketplace/CartSummary.tsx:71-78 | for a listed item `-` at quantity 1 takes it off the list, and `+` raises its quantity without adding a line |
| CartSummary.RemoveOneDistinct | client/src/components/marketplace/CartSummary.tsx:86 | with distinct ids, removing a listed item's id shortens the list by one and that item is gone |
| CartPage.Tax | client/src/pages/CartPage.tsx:116 | the 8% tax lies between 0 and the subtotal for a non-negative subtotal |
| CartPage.PageTotalAddsTax | client/src/pages/CartPage.tsx:123 | `PageTotal`: the page total is the summary card's total plus tax, so the two totals differ whenever the subtotal is non-zero |
| CartPage.ExamplePageTotal | client/src/pages/CartPage.tsx:123 | a 42.97 delivery cart totals exactly 52.3976 |
| CartPage.ItemCountAtLeastLines | client/src/pages/CartPage.tsx:103 | `ItemCount`, the sum of quantities: with every line positive, which the two lemmas above keep for carts filled from the product tiles, the page's unit count is at least the number of lines |
| CartPage.OrderSummaryMatchesSummaryCard | client/src/pages/CartPage.tsx:86-98 | `ShowsOrderSummary`: the page's summary card shows exactly when the cart summary shows lines rather than its empty state, and never for the cleared cart |
| CartPage.CheckoutPage.constructor | client/src/pages/CartPage.tsx:11-12 | neither checking out nor succeeded |
| CartPage.CheckoutPage.HandleCheckout | client/src/pages/CartPage.tsx:14-18 | checkout starts and one more timer is pending |
| CartPage.CheckoutPage.TimerFires | client/src/pages/CartPage.tsx:18-22 | the timer ends the checkout, shows success and clears the cart |
| CartPage.SuccessScreenShowsPickup | client/src/pages/CartPage.tsx:52 | the success screen prints the cleared cart's option, which is always pickup |
| CartPage.CheckoutScenario | client/src/pages/CartPage.tsx:14-52 | a delivery order checked out shows pickup as its delivery method |
| Workouts.ToggleExpand | client/src/pages/WorkoutPage.tsx:68-72 | the same ids in the same order |
| Workouts.ToggleFavorite | client/src/pages/WorkoutPage.tsx:74-78 | the same ids in the same order |
| Workouts.TogglesAreInvolutions | client/src/pages/WorkoutPage.tsx:68-78 | toggling expanded or favorite twice restores the list |
| Workouts.MaxId | client/src/pages/WorkoutPage.tsx:107 | `Math.max` of the ids is an upper bound attained by some workout |
| Workouts.NextId | client/src/pages/WorkoutPage.tsx:107 | the new id is above every existing id |
| Workouts.WorkoutFromForm | client/src/pages/WorkoutPage.tsx:106-119 | the new workout carries the form's texts, the numbers read from each row, no completion date, collapsed and not a favorite |
| Workouts.AddWorkoutSpec | client/src/pages/WorkoutPage.tsx:104-120 | `AddWorkout`: submit appends exactly one workout after the old ones, with a fresh id, so ids stay distinct |
| Workouts.DeleteWorkoutSpec | client/src/pages/WorkoutPage.tsx:130-132 | `DeleteWorkout`: delete keeps exactly the workouts with other ids, in order, and ids stay distinct |
| Workouts.SubsequenceKeepsDistinct | client/src/pages/WorkoutPage.tsx:131 | deleting workouts from a list with distinct ids leaves distinct ids |
| Workouts.CompleteWorkout | client/src/pages/WorkoutPage.tsx:150-158 | the same ids; the matching workouts get the date and the duration |
| Workouts.SameIdsKeepDistinct | client/src/pages/WorkoutPage.tsx:150-158 | a map that keeps ids keeps them distinct |
| Workouts.SetFormField | client/src/pages/WorkoutPage.tsx:80-83 | only the named field of the form changes |
| Workouts.RemoveRow | client/src/pages/WorkoutPage.tsx:99-102 | removing a row index in range shortens the rows by one; another index changes nothing |
| Workouts.RemoveRowSpec | client/src/pages/WorkoutPage.tsx:99-102 | every row other than the removed one is kept, in order |
| Workouts.WorkoutPageState.constructor | client/src/pages/WorkoutPage.tsx:28-66 | the two initial workouts, a blank form with one row, the form hidden |
| Workouts.WorkoutPageState.ShowAddForm | client/src/pages/WorkoutPage.tsx:203-208 | "Add Workout" opens the form with its previous entries; nothing else changes |
| Workouts.WorkoutPageState.CancelAddForm | client/src/pages/WorkoutPage.tsx:216-218 | the close icon and "Cancel" hide the form without resetting it |
| Workouts.WorkoutPageState.HandleToggleExpand | client/src/pages/WorkoutPage.tsx:68-72 | the list becomes the toggled list and ids stay distinct |
| Workouts.WorkoutPageState.HandleToggleFavorite | client/src/pages/WorkoutPage.tsx:74-78 | the list becomes the toggled list and ids stay distinct |
| Workouts.WorkoutPageState.HandleInputChange | client/src/pages/WorkoutPage.tsx:80-83 | while the form is open, only the named form field changes |
| Workouts.WorkoutPageState.HandleExerciseChange | client/src/pages/WorkoutPage.tsx:85-90 | while the form is open, only the named field of the one row changes |
| Workouts.WorkoutPageState.AddExerciseField | client/src/pages/WorkoutPage.tsx:92-97 | while the form is open, a blank row is appended |
| Workouts.WorkoutPageState.RemoveExerciseField | client/src/pages/WorkoutPage.tsx:99-102 | the shown Remove button drops that row and the form keeps at least one row |
| Workouts.WorkoutPageState.HandleSubmit | client/src/pages/WorkoutPage.tsx:104-128 | submitting the open form appends the workout, resets the form and hides it, and ids stay distinct |
| Workouts.WorkoutPageState.HandleDelete | client/src/pages/WorkoutPage.tsx:130-132 | the list becomes the filtered list and ids stay distinct |
| Workouts.WorkoutPageState.HandleComplete | client/src/pages/WorkoutPage.tsx:150-158 | the list becomes the completed list and ids stay distinct |
| WorkoutTracking.SetsFor | client/src/components/workout/WorkoutTracking.tsx:51-56 | n sets become n records numbered 1..n, not completed, with empty weight and reps; none for n ≤ 0 |
| WorkoutTracking.BuildSession | client/src/components/workout/WorkoutTracking.tsx:46-58 | the session keeps the id, takes the name as title and tracks each exercise in order |
| WorkoutTracking.LookupSession | client/src/components/workout/WorkoutTracking.tsx:43-62 | no session (the page navigates back) exactly when the parsed id is not a number or no workout has it; otherwise the session of a workout with the id |
| WorkoutTracking.SessionSets | client/src/components/workout/WorkoutTracking.tsx:44-58 | the k-th record of an exercise's session is set k+1, not completed, with empty weight and reps |
| WorkoutTracking.CompleteSet | client/src/components/workout/WorkoutTracking.tsx:74-80 | only the one set becomes completed; every other set and exercise is unchanged |
| WorkoutTracking.CompleteSetIdempotent | client/src/components/workout/WorkoutTracking.tsx:74-80 | completing the same set again changes nothing |
| WorkoutTracking.NatToString | client/src/components/workout/WorkoutTracking.tsx:85 | the decimal text has at least one digit and at most two below 100 |
| WorkoutTracking.PadStart2 | client/src/components/workout/WorkoutTracking.tsx:85 | `padStart(2, '0')` gives two characters for short texts and leaves longer ones alone |
| WorkoutTracking.NatToStringValue | client/src/components/workout/WorkoutTracking.tsx:85 | the decimal text reads back as the number |
| WorkoutTracking.LeadingZeroValue | client/src/components/workout/WorkoutTracking.tsx:85 | a leading zero does not change the value read back |
| WorkoutTracking.PadStart2Value | client/src/components/workout/WorkoutTracking.tsx:85 | a padded number below 100 reads back as itself |
| WorkoutTracking.FormatTimeRoundTrip | client/src/components/workout/WorkoutTracking.tsx:82-86 | `formatTime(s)` reads back as s (60 × minutes + seconds), has a colon before two second digits, and has 5 characters for s < 6000 |
| WorkoutTracking.FormatTimeExamples | client/src/components/workout/WorkoutTracking.tsx:82-86 | 0 s is `00:00` and 75 s is `01:15` |
| WorkoutTracking.TrackingSession.constructor | client/src/components/workout/WorkoutTracking.tsx:37-62 | the session is the lookup's; the page navigates back exactly when there is none; cursor, timer and flags start at zero |
| WorkoutTracking.TrackingSession.HandleSetComplete | client/src/components/workout/WorkoutTracking.tsx:74-80 | without a session nothing happens; otherwise the session becomes `CompleteSet(...)` and nothing else changes |
| WorkoutTracking.TrackingSession.Tick | client/src/components/workout/WorkoutTracking.tsx:64-72 | the timer advances by one only while running |
| WorkoutTracking.TrackingSession.ToggleTimer | client/src/components/workout/WorkoutTracking.tsx:88-90 | running flips and the timer stays |
| WorkoutTracking.TrackingSession.HandleNextExercise | client/src/components/workout/WorkoutTracking.tsx:92-101 | below the last exercise the cursor moves on; at the last it reports `(id, formatTime(timer))` once and completes; the cursor stays on an exercise |
| WorkoutTracking.TrackingSession.HandlePreviousExercise | client/src/components/workout/WorkoutTracking.tsx:103-107 | the cursor moves back only above 0 |
| WorkoutTracking.ReportedDurationReadsBack | client/src/components/workout/WorkoutTracking.tsx:98 | the duration reported on completion reads back as the elapsed seconds |
| OnboardingFlow.GateFor | client/src/pages/OnboardingFlow.tsx:19-25 | the wizard shows only when loading is done and the session is authenticated; signed out redirects to login |
| OnboardingFlow.SetField | client/src/pages/OnboardingFlow.tsx:88-91 | only the named field changes (age becomes the typed text); the goals stay |
| OnboardingFlow.SetFieldLastWins | client/src/pages/OnboardingFlow.tsx:88-91 | the latest edit of a field wins, and edits of different fields commute |
| OnboardingFlow.ToggleGoal | client/src/pages/OnboardingFlow.tsx:93-100 | the goal's membership flips and every other goal's membership stays |
| OnboardingFlow.ToggleGoalNoDup | client/src/pages/OnboardingFlow.tsx:93-100 | toggling never introduces a duplicate goal |
| OnboardingFlow.ToggleGoalTwice | client/src/pages/OnboardingFlow.tsx:93-100 | toggling twice restores the set of goals; the same list comes back when the goal was absent, while a present goal moves to the end |
| OnboardingFlow.ToggleTwoGoals | client/src/pages/OnboardingFlow.tsx:38-46 | tapping Build Muscle then Improve Stamina lists them in that order |
| OnboardingFlow.ProgressWidth | client/src/pages/OnboardingFlow.tsx:262 | the bar is 25 × step percent wide |
| OnboardingFlow.ProgressBounds | client/src/pages/OnboardingFlow.tsx:262 | on steps 0-4 the width lies in [0, 100], is 0 only at step 0 and 100 only at step 4 |
| OnboardingFlow.NavFor | client/src/pages/OnboardingFlow.tsx:273-291 | no button below step 1; `Complete` exactly at step 4 |
| OnboardingFlow.NavigationPerStep | client/src/pages/OnboardingFlow.tsx:250-291 | step 0 has neither Back nor a nav button; steps 1-3 have Back and Next; step 4 has Back and Complete |
| OnboardingFlow.OnboardingWizard.constructor | client/src/pages/OnboardingFlow.tsx:29-36 | step 0 with name `''`, age 0, gender male, location `''` and no goals |
| OnboardingFlow.OnboardingWizard.HandleNext | client/src/pages/OnboardingFlow.tsx:65-67 | the step grows by one only below 4, so it stays in [0, 4] |
| OnboardingFlow.OnboardingWizard.HandleBack | client/src/pages/OnboardingFlow.tsx:69-71 | the step drops by one only above 0 |
| OnboardingFlow.OnboardingWizard.HandleInputChange | client/src/pages/OnboardingFlow.tsx:88-91 | the form becomes `SetField(...)`; the step stays |
| OnboardingFlow.OnboardingWizard.ToggleFitnessGoal | client/src/pages/OnboardingFlow.tsx:93-100 | the goals become the toggled list and stay free of duplicates |
| OnboardingFlow.OnboardingWizard.HandleSubmit | client/src/pages/OnboardingFlow.tsx:73-86 | the wizard completes exactly when the POST succeeded; step and form stay |
| OnboardingSteps.TrimStart | client/src/components/auth/OnboardingSteps.tsx:34 | what remains does not start with a trimmable character |
| OnboardingSteps.BlankIffAllTrimmed | client/src/components/auth/OnboardingSteps.tsx:34 | `!address.trim()` holds exactly when every character is white space or a line terminator |
| OnboardingSteps.BlankExamples | client/src/components/auth/OnboardingSteps.tsx:34 | the empty and whitespace-only addresses are blank and a real address is not |
| OnboardingSteps.SetupSteps.constructor | client/src/components/auth/OnboardingSteps.tsx:13-16 | step 1, nothing selected, no address, no error |
| OnboardingSteps.SetupSteps.HandleCategorySelect | client/src/components/auth/OnboardingSteps.tsx:18-21 | the category is recorded and the error clears |
| OnboardingSteps.SetupSteps.HandleCategorySubmit | client/src/components/auth/OnboardingSteps.tsx:23-31 | without a choice the category error is set and the step stays; with one `setGymCategory` is called and step 2 opens |
| OnboardingSteps.SetupSteps.EditAddress | client/src/components/auth/OnboardingSteps.tsx:133 | only the address changes |
| OnboardingSteps.SetupSteps.HandleLocationSubmit | client/src/components/auth/OnboardingSteps.tsx:33-43 | a blank address sets the address error and calls nothing; otherwise `setHomeLocation(37.7749, -122.4194, address)` with the untrimmed address and the page goes to the gyms |
| OnboardingSteps.SetupSteps.BackToCategories | client/src/components/auth/OnboardingSteps.tsx:152 | step 1, keeping the choice, the address and the error |
| OnboardingSteps.IndicatorsPerStep | client/src/components/auth/OnboardingSteps.tsx:54-66 | indicator 1 is always lit, indicator 2 exactly on step 2, indicator 3 never |
| OnboardingSteps.SetupScenario | client/src/components/auth/OnboardingSteps.tsx:18-43 | choose, continue, type and complete make exactly the two session calls and reach the gyms |
| Profile.Gate | client/src/pages/ProfilePage.tsx:21-23 | the profile shows exactly when authenticated with a user; otherwise redirect to login |
| Profile.CategoryColor | client/src/pages/ProfilePage.tsx:25-30 | Basic is blue, Premium purple, Elite orange, anything else gray |
| Profile.CardIconColor | client/src/pages/ProfilePage.tsx:155-159 | the card icon is orange for anything but Basic and Premium, even with no tier |
| Profile.TierPrice | client/src/pages/ProfilePage.tsx:172-173 | 29.99 exactly for Basic, 59.99 exactly for Premium, 99.99 for everything else |
| Profile.MembershipTitle | client/src/pages/ProfilePage.tsx:165 | the title is the tier, or Basic with no tier |
| Profile.UntieredCardDisagrees | client/src/pages/ProfilePage.tsx:155-173 | a member with no tier reads "Basic Membership" but is priced 99.99 with an orange icon, unlike a Basic member |
| Profile.PricesFollowTierOrder | client/src/pages/ProfilePage.tsx:207-208 | the listed tiers are priced in increasing order |
| Profile.PlanButton | client/src/pages/ProfilePage.tsx:212-218 | no button exactly for the member's own tier; Upgrade only with a tier |
| Profile.TierIndices | client/src/pages/ProfilePage.tsx:215 | Basic, Premium and Elite sit at positions 0, 1 and 2 |
| Profile.UpgradeMeansPricier | client/src/pages/ProfilePage.tsx:212-218 | between listed tiers Upgrade appears exactly for pricier plans and Switch Plan exactly for cheaper ones |
| Profile.PlanButtonsOffTheList | client/src/pages/ProfilePage.tsx:214-217 | with no tier every plan says Switch Plan; with an unlisted tier every plan says Upgrade |
| Profile.OneCurrentPlan | client/src/pages/ProfilePage.tsx:212 | at most one listed plan hides its button |
| Profile.OrElse | client/src/pages/ProfilePage.tsx:46-128 | `value \|\| fallback` on a string: the value when it is non-empty, otherwise the fallback, so it is never empty when the fallback is not |
| Profile.HomeText | client/src/pages/ProfilePage.tsx:136 | the home address when it is non-empty, and `Not set` both when there is no home location and when its address is empty |
| Profile.SidebarBadge | client/src/pages/ProfilePage.tsx:50-58 | the badge shows exactly for a truthy tier and reads "tier Membership" |
| Profile.UnnamedMember | client/src/pages/ProfilePage.tsx:46-114 | an unnamed member is `FitPass User` in the sidebar and `Not set` in the form |
| GymFilter.FilterPanel.constructor | client/src/components/gym/GymFilter.tsx:16-22 | search `''`, no amenities, price [0, 200], sort `distance`, category `''`; nothing reported |
| GymFilter.FilterPanel.HandleSearchChange | client/src/components/gym/GymFilter.tsx:24-28 | the search changes and the updated record is reported at once |
| GymFilter.FilterPanel.HandlePriceRangeChange | client/src/components/gym/GymFilter.tsx:30-34 | only the edited bound changes and nothing is reported |
| GymFilter.FilterPanel.ApplyPriceRange | client/src/components/gym/GymFilter.tsx:36-38 | the whole current record is reported |
| GymFilter.FilterPanel.HandleSortChange | client/src/components/gym/GymFilter.tsx:40-42 | only `sortBy` changes and nothing is reported |
| GymFilter.FilterPanel.ApplySort | client/src/components/gym/GymFilter.tsx:44-46 | the whole current record is reported |
| GymFilter.ReportedRecordFiltersBySearchAndPrice | client/src/components/gym/GymFilter.tsx:16-46 | since amenities and category never change, a reported record keeps exactly the gyms matching its search and price range |
| GymFilter.PendingEditsTravelTogether | client/src/components/gym/GymFilter.tsx:30-46 | a pending sort choice is reported by Apply Price Range, and Apply Sort then reports the same record |
| ProductCard.NextQuantity | client/src/components/marketplace/ProductCard.tsx:17-20 | `max(1, q + c)`: at least 1 and at least q + c |
| ProductCard.QuantitySteps | client/src/components/marketplace/ProductCard.tsx:17-20 | `+` then `-` returns to the quantity, and `-` stops at 1 |
| ProductCard.ProductTile.constructor | client/src/components/marketplace/ProductCard.tsx:14-15 | quantity 1, not adding, nothing sent |
| ProductCard.ProductTile.Label | client/src/components/marketplace/ProductCard.tsx:87 | `Added!` exactly while adding |
| ProductCard.ProductTile.ClickMinus | client/src/components/marketplace/ProductCard.tsx:64-70 | the quantity drops by one above 1; the disabled button does nothing at 1 |
| ProductCard.ProductTile.ClickPlus | client/src/components/marketplace/ProductCard.tsx:72-77 | the quantity grows by one |
| ProductCard.ProductTile.ClickAdd | client/src/components/marketplace/ProductCard.tsx:22-31 | disabled out of stock or while adding; otherwise sends `(id, quantity)`, shows Added! and starts one reset timer |
| ProductCard.ProductTile.ResetTimerFires | client/src/components/marketplace/ProductCard.tsx:27-30 | not adding and quantity back to 1 |
| ProductCard.AddThreeScenario | client/src/components/marketplace/ProductCard.tsx:14-31 | picking 3 and adding sends exactly (id, 3) once, even with a second click, and the tile returns to 1 |
| ProductCard.OutOfStockScenario | client/src/components/marketplace/ProductCard.tsx:82 | an out-of-stock product sends nothing |
| Slider.LowerThumb | client/src/components/ui/slider.tsx:38-41 | the lower thumb reports min(v, max − 1) and keeps the upper value |
| Slider.UpperThumb | client/src/components/ui/slider.tsx:50-53 | the upper thumb reports max(v, min + 1) and keeps the lower value |
| Slider.ThumbsStayApart | client/src/components/ui/slider.tsx:38-53 | after either event the reported pair has lower < upper, for any input |
| Slider.ThumbsKeepAllowedValues | client/src/components/ui/slider.tsx:38-53 | a value at least one away from the other thumb passes unchanged, and repeating an input changes nothing |
| Slider.Percent | client/src/components/ui/slider.tsx:18-19 | a percentage exists exactly when max ≠ min |
| Slider.Bar | client/src/components/ui/slider.tsx:16-23 | the bar exists exactly when max ≠ min |
| Slider.PercentMonotone | client/src/components/ui/slider.tsx:18-19 | on a proper track a larger value has a larger percentage |
| Slider.BarGeometry | client/src/components/ui/slider.tsx:16-23 | for min value ≤ max value on a proper track the width is ≥ 0, the bar ends at the upper percentage, and the whole track is 0 to 100 |
| Slider.ThumbEventKeepsBar | client/src/components/ui/slider.tsx:16-53 | after either thumb event the bar's width is non-negative |
| OnboardingController.ValidationUnderTruthiness | server/controllers/onboardingController.js:10 | age 0, an empty name or a missing goal list are rejected; an empty goal array is accepted |
| OnboardingController.Upserted | server/controllers/onboardingController.js:18-40 | the record carries the five answers and `onboarded`; an existing record keeps its document id and user, a new one is for the caller |
| OnboardingController.OnboardingStore.constructor | server/controllers/onboardingController.js:1 | the collection starts empty |
| OnboardingController.OnboardingStore.Lookup | server/controllers/onboardingController.js:18 | `findOne({userId})` finds the caller's record exactly when one exists |
| OnboardingController.OnboardingStore.UpdateOnboarding | server/controllers/onboardingController.js:4-53 | falsy fields give 400 and no change; a store error gives 500 and no change; otherwise the caller's record is upserted and returned with 200 |
| OnboardingController.OnboardingStore.GetOnboarding | server/controllers/onboardingController.js:56-79 | a store error gives 500; no record gives 404 `Onboarding data not found`; otherwise 200 with the caller's record; success exactly with 200 |
| OnboardingController.UpsertTouchesOnlyCaller | server/controllers/onboardingController.js:18-45 | after an update the caller has exactly one onboarded record, an existing one keeps its id, and every other user's record is unchanged |
| OnboardingController.UpsertIdempotent | server/controllers/onboardingController.js:18-40 | posting the same answers twice leaves the store as posting them once |
| OnboardingController.BodyOf | client/src/pages/OnboardingFlow.tsx:76 | the wizard's form becomes the request body field by field |
| OnboardingController.WizardSubmissions | server/controllers/onboardingController.js:10 | the untouched wizard form (age 0, empty name) is rejected; a form with name, age text and location is accepted even with no goals |

## Left out

- Persistence of the cart to local storage and the JSON round trip (client/src/context/CartContext.tsx:23-34) are I/O. The model assumes that a restored cart already has distinct product ids. The save effect also stores the stale subtotal written before the subtotal effect runs; that write is not modelled.
- Timers and intervals are explicit event methods; the delays themselves are not modelled.
  - The checkout, reset and booking delays.
  - The one-second tick of the workout timer.
- `Math.random` ids and `new Date()` are parameters: `randomId`, `now`, `today`. The order number and date on the checkout success screen are not modelled.
- `Number` and `parseInt` are parameters or integer inputs. `NaN` from `parseInt` in the gym filter's price inputs is not modelled.
- `toFixed`, `toLocaleDateString` and the product and gym image URLs are rendering only.
- `encodeURIComponent` works on Unicode scalar values. A JavaScript string with a lone surrogate, on which it throws `URIError`, cannot be written in the model. `decodeURIComponent` is not called by the application; it is modelled only as the inverse that the round-trip lemma reads back with.
- `toLowerCase` is modelled for ASCII letters only.
- Authentication is not modelled: the session context, the login, tokens, the server's `protect` middleware and the `user` object's origin. `user`, `setGymCategory` and `setHomeLocation` are parameters or recorded calls.
- The onboarding wizard's POST is network I/O; only its outcome is a parameter of `HandleSubmit`. Its hooks, which run after a conditional return, are not modelled.
- The server's Express, Mongoose and CORS wiring is not part of this model, nor is the onboarding schema's type casting. Stored fields keep the request's JSON values.
- OnboardingController.OnboardingStore.UpdateOnboarding: the store is a map from user id, so "one record per user" holds by construction rather than as a collection invariant.
- Button.tsx is not part of this model. Whether the shared button component blocks clicks while `isLoading` is unknown. `CartPage.CheckoutPage.HandleCheckout` therefore allows checkout to be clicked again, with several timers pending.
- WorkoutTracking.TrackingSession.HandleSetComplete: the source sets `completed` on the nested set array in place, shared with the previous state object. The model replaces the session value, so that aliasing is not captured.
- WorkoutTracking.LookupSession: the session is built once. A later change of the route id or of the workouts list is not re-looked-up.
- Presentation-only parts are not modelled: animations, icons, images, CSS class strings other than the palette choices, the slider's DOM style writes, and the static marketing pages.
- Navigation is a flag or a gate value (`navigatedToGyms`, `completed`, `RedirectToLogin`), not a router.
