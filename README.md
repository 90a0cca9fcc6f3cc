# Storefront business rules in Dafny

This project models the deterministic rules of a client-side storefront written in React.

- **Cart session.** The cart provider holds three pieces of state: the cart lines, the saved-for-later list and at most one active coupon. The coupon is taken from a fixed catalogue of four. The provider's mutators replace that state. Its getters derive the subtotal, the item counts, the coupon verdict, the discount and the shipping fee.
- **Cart page.** It steps quantities up and down, guards the coupon entry box and composes the order summary (8% tax, total floored at 0, free-shipping progress).
- **Home page.** It runs the product search, category filter, inclusive price bounds and keyed sort. It also picks the trending top eight, counts products per category and rotates the daily deal.
- **Filter sidebar.** The rating, brand and feature lists are toggled. The price slider clamps its ends and takes its bounds from the catalogue. The sidebar also counts products per category and per rating threshold, extracts the sorted distinct brands, and provides the "active filters" test and the Clear All reset.
- **Dashboard.** It computes revenue, the average order value with its zero guard, the five best sellers, the low-stock list, the five recent orders and the sales chart's scale.
- **Settings page.** It holds the preference toggles and their reset to defaults, the three-field password form, and the password update's ordered checks.

Each stateful component is a Dafny class whose fields its handlers replace, as the component's setters do:

- `CartContext.CartSession`;
- `CartPage.CartView`;
- `Home.HomeView`;
- `FilterSidebar.SidebarState`;
- `Settings.SettingsView`.

Most handlers state their new state as a function of the old state. `HomeView.Refresh` is the exception: it states its result by what is selected (each product's multiplicity) and by sortedness, not as one function. The lemmas beside these functions prove what the storefront promises of them:

- unique product ids and positive quantities in the cart;
- exact quantity and total changes;
- the coupon thresholds;
- the search and filter selections by multiplicity;
- sortedness for every sort key;
- bounds on the dashboard figures;
- the password checks in their order.

JavaScript's array and string built-ins are modelled once, in `Sequences` and `Text`:

- `filter`;
- comparator `sort`;
- `slice(0, n)`;
- `includes`;
- `toLowerCase` and `toUpperCase`;
- `trim`;
- the UTF-16 `length`;
- number-to-string.

Money is `real` and 8% is `8/100`.

Files:

- `wrappers.dfy`: `Option` and `Result`;
- `text.dfy`, `sequences.dfy`: the built-ins;
- `products.dfy`: the product record;
- `cart_context.dfy`: the cart session;
- `cart_page.dfy`: the cart page;
- `home.dfy`: the home page;
- `filter_sidebar.dfy`: the filter sidebar;
- `dashboard.dfy`: the dashboard;
- `settings.dfy`: the settings page.

## Model

| member | source | states |
|---|---|---|
| CartContext.AddLine | src/context/CartContext.js:42-58 | The cart's id list is unchanged when the product is already present; otherwise the product's id is appended at the end. |
| CartContext.Bumped | src/context/CartContext.js:46-50 | The `map` keeps the length and the ids. Exactly the lines with the product's id get quantity + 1; every other line is kept as it is. |
| CartContext.AddLineExisting | src/context/CartContext.js:42-50 | Adding a product already in a cart with distinct ids raises only that line's quantity, by exactly 1. Length, order and all other lines are unchanged. |
| CartContext.AddLineCountsNew | src/context/CartContext.js:52-56 | Adding a product not in the cart raises its item count from 0 to 1 and the cart count by 1. Other products' counts are unchanged, and the subtotal grows by the product's price. |
| CartContext.AddLineCountsExisting | src/context/CartContext.js:42-50 | Adding a product already at line k raises its item count and the cart count by 1 each, and the subtotal by that line's price. Other products' counts are unchanged. |
| CartContext.AddLineCounts | src/context/CartContext.js:42-58 | On any valid cart, addToCart raises the product's item count by exactly 1 and the cart count by 1. Every other product's count is unchanged, and the subtotal grows by the product's price. |
| CartContext.AddLineInvariant | src/context/CartContext.js:42-58 | addToCart keeps product ids unique and every quantity at least 1. |
| CartContext.RepeatedAdd | src/context/CartContext.js:42-58 | Adding the same product once per timestamp, n ≥ 1 times, to an empty cart gives one line with quantity n. The line keeps the first add's timestamp, whatever the later ones are. |
| CartContext.RepeatedAddTotals | src/context/CartContext.js:96-107 | After n ≥ 1 adds of one product to an empty cart, with any timestamps, its item count is n and the subtotal is the total of one line of quantity n, price × n. |
| CartContext.SetQuantity | src/context/CartContext.js:64-72 | A positive quantity keeps the cart's id list unchanged. |
| CartContext.SetQuantitySpec | src/context/CartContext.js:64-72 | A quantity ≤ 0 is exactly removeFromCart. An absent id is a no-op. The cart invariant is kept either way. |
| CartContext.SetQuantityExisting | src/context/CartContext.js:67-70 | A positive quantity on the line holding the id sets that line's quantity to the value given (it does not add to it), and getItemCount then returns it. |
| CartContext.WithoutSpec | src/context/CartContext.js:60-62 | After removeFromCart the id is gone. Every line with another id is kept, and nothing new appears. An absent id is a no-op, and the invariant is kept. |
| CartContext.Without | src/context/CartContext.js:60-62 | removeFromCart's list: no longer than the cart, and no remaining line has the id. |
| CartContext.WithoutInvariant | src/context/CartContext.js:60-62 | Removing a product keeps ids unique and quantities positive. |
| CartContext.Subtotal | src/context/CartContext.js:96-98 | getCartTotal is Σ price × quantity, so it is non-negative when prices and quantities are. |
| CartContext.SubtotalAppend | src/context/CartContext.js:96-98 | The total of a cart with one more line is the old total plus that line's price × quantity. |
| CartContext.SubtotalUpdate | src/context/CartContext.js:96-98 | Replacing one line changes the total by the difference of the two line totals. |
| CartContext.SubtotalBump | src/context/CartContext.js:96-98 | One more of line k raises the total by that line's unit price. |
| CartContext.CartCount | src/context/CartContext.js:100-102 | getCartCount sums quantities, not lines: with positive quantities it is at least the number of lines. |
| CartContext.CartCountAppend | src/context/CartContext.js:100-102 | One more line adds its quantity to the count. |
| CartContext.CartCountUpdate | src/context/CartContext.js:100-102 | Replacing one line changes the count by the difference of the two quantities. |
| CartContext.ItemCount | src/context/CartContext.js:104-107 | getItemCount is 0 for an absent id. With positive quantities it is at least 1 exactly when the id is in the cart. |
| CartContext.ItemCountAt | src/context/CartContext.js:104-107 | With distinct ids, getItemCount of a line's product is that line's quantity. |
| CartContext.SaveForLaterSpec | src/context/CartContext.js:74-81 | After saveForLater the product's id occurs exactly once in the saved list (no duplicate append) and not at all in the cart. |
| CartContext.SaveItem | src/context/CartContext.js:74-81 | saveForLater's list: the saved ids gain the product's id at the end unless it is already there, and every saved product is kept. |
| CartContext.UnsaveSpec | src/context/CartContext.js:83-90 | Removing a saved product drops its id from the saved list and keeps the saved ids distinct. Every other saved product is kept and nothing new appears. An id that was not saved leaves the list unchanged. |
| CartContext.Unsave | src/context/CartContext.js:83-90 | The saved list after moveToCart or removeSavedItem: no longer than before, and no entry with the id remains. |
| CartContext.SaveThenMove | src/context/CartContext.js:74-86 | For any cart: saving a product and then moving it back restores the saved list. The product returns to the cart as a fresh line of quantity 1 at the end. |
| CartContext.FindCode | src/context/CartContext.js:110 | `find` returns a catalogue coupon with that exact code, and returns nothing exactly when no coupon has the code. |
| CartContext.CatalogWellFormed | src/context/CartContext.js:24-29 | The four codes are distinct and already upper-case, and no percentage exceeds 100. |
| CartContext.ValidateCoupon | src/context/CartContext.js:109-122 | Success gives the catalogue coupon whose code is the upper-cased input, with the subtotal at or above its minimum. The code is invalid exactly when no coupon matches. A minimum-order failure names the matching coupon's minimum, which the subtotal is below. |
| CartContext.CouponError.Message | src/context/CartContext.js:109-122 | An unknown code reads "Invalid coupon code". A missed minimum reads "Minimum order of $", then digits whose value is the minimum, then " required". |
| CartContext.ValidateThreshold | src/context/CartContext.js:113-121 | For a matching coupon, validation succeeds exactly when the subtotal is at least its minimum, equality included. Below the minimum it fails with that minimum. |
| CartContext.ValidateLowerCase | src/context/CartContext.js:110 | "save10" is accepted as SAVE10, so matching ignores case. |
| CartContext.ValidateLowerCaseLast | src/context/CartContext.js:110 | "welcome15" with subtotal 30 is accepted as WELCOME15: the last catalogue entry, exactly at its minimum. |
| CartContext.ValidateBelowMinimum | src/context/CartContext.js:114-119 | SAVE20 on a subtotal of 50 fails with "Minimum order of $100 required". |
| CartContext.HundredText | src/context/CartContext.js:117 | The minimum-order message for 100 reads "Minimum order of $100 required". |
| CartContext.ValidateUnknown | src/context/CartContext.js:111 | A code outside the catalogue fails as invalid whatever the subtotal. |
| CartContext.CalculateDiscount | src/context/CartContext.js:137-145 | No coupon gives 0. A percentage coupon gives exactly subtotal × discount/100. A fixed coupon gives its amount when the subtotal covers it, and otherwise the whole subtotal; so it never exceeds either. |
| CartContext.DiscountWithinSubtotal | src/context/CartContext.js:137-145 | For no coupon or a catalogue coupon, the discount lies between 0 and a non-negative subtotal. |
| CartContext.CalculateShipping | src/context/CartContext.js:147-150 | The fee is 0, 5 or 10, each in exactly one band. It is 0 exactly with a free-shipping coupon or a subtotal ≥ 100. Without free shipping it is 5 exactly for 50 ≤ subtotal < 100, and 10 exactly below 50. |
| CartContext.ShippingMonotone | src/context/CartContext.js:147-150 | A larger subtotal never pays more shipping. |
| CartContext.ShippingBoundaries | src/context/CartContext.js:147-150 | 49.99 pays 10, 50 pays 5, 100 pays 0, and FREESHIP pays 0 even on 10. |
| CartContext.CartSession.constructor | src/context/CartContext.js:14-31 | A session starts from the given cart and saved lists with no coupon. It is valid when those lists are. |
| CartContext.CartSession.AddToCart | src/context/CartContext.js:42-58 | The cart becomes AddLine of the old cart. The saved list and coupon are unchanged, and validity is kept. |
| CartContext.CartSession.RemoveFromCart | src/context/CartContext.js:60-62 | The cart loses the id's lines and nothing else changes. Validity is kept. |
| CartContext.CartSession.UpdateQuantity | src/context/CartContext.js:64-72 | The cart becomes SetQuantity of the old cart and nothing else changes. Validity is kept. |
| CartContext.CartSession.SaveForLater | src/context/CartContext.js:74-81 | The product is saved unless its id already is, and it is removed from the cart. The coupon is unchanged, and validity is kept. |
| CartContext.CartSession.MoveToCart | src/context/CartContext.js:83-86 | The product is added as addToCart does and removed from the saved list. The coupon is unchanged, and validity is kept. |
| CartContext.CartSession.RemoveSavedItem | src/context/CartContext.js:88-90 | The id is dropped from the saved list. The cart and coupon are unchanged. |
| CartContext.CartSession.ClearCart | src/context/CartContext.js:92-94 | The cart becomes empty. The saved list and the active coupon are untouched. |
| CartContext.CartSession.ApplyCoupon | src/context/CartContext.js:124-131 | It returns the validation of the code against the current subtotal. The active coupon changes only on success, to the validated coupon. |
| CartContext.CartSession.RemoveCoupon | src/context/CartContext.js:133-135 | The active coupon becomes none. |
| CartPage.IncrementSpec | src/pages/Cart.js:41-44 | `+` on a rendered line raises exactly that line's quantity by 1, so its item count becomes quantity + 1. The cart invariant is kept. |
| CartPage.DecrementSpec | src/pages/Cart.js:46-53 | `-` lowers the line by exactly 1 when its quantity is above 1. At quantity 1 it removes the line, leaving an item count of 0. The invariant is kept. |
| CartPage.IncrementLine | src/pages/Cart.js:41-44 | The `+` button keeps the cart's ids, and the stepped product's line gets the rendered quantity + 1. |
| CartPage.DecrementLine | src/pages/Cart.js:46-53 | The `-` button at quantity 1 or less removes the product's id. Above 1 it keeps the ids, and the product's line gets the rendered quantity − 1. |
| CartPage.CartView.HandleIncrement | src/pages/Cart.js:41-44 | The cart becomes the incremented cart. The saved list and coupon are unchanged, and validity is kept. |
| CartPage.CartView.HandleDecrement | src/pages/Cart.js:46-53 | The cart becomes the decremented cart: updateQuantity above 1, removeFromCart at 1. The saved list and coupon are unchanged. |
| CartPage.CartView.EditCouponCode | src/pages/Cart.js:462-465 | Typing replaces the entry and clears the error. |
| CartPage.CartView.HandleApplyCoupon | src/pages/Cart.js:64-80 | A blank or whitespace-only entry sets "Please enter a coupon code" and changes neither the coupon nor the entry. Otherwise applyCoupon decides the outcome. Success activates the coupon, sets the success text and clears the entry and error. Failure keeps the old coupon, shows the result's message and clears the success text. |
| CartPage.CartView.HandleRemoveCoupon | src/pages/Cart.js:82-87 | The coupon, the entry, the success text and the error are all cleared. |
| CartPage.BlankEntryExamples | src/pages/Cart.js:65 | "   " and "" count as blank; " save10" does not. |
| CartPage.SuccessText | src/pages/Cart.js:72 | The success banner is the page's prefix as written (the four characters U+00F0 U+0178 U+017D U+2030, a mis-decoded party emoji, then a space), then digits whose value is the coupon's discount, then "% off applied!". |
| CartPage.SummaryOf | src/pages/Cart.js:89-96 | Shipping and discount are the cart session's figures for this subtotal, and tax is exactly 8% of the subtotal. The total is never negative and never below subtotal + shipping + tax − discount. It is either 0 or exactly that sum. |
| CartPage.OrderSummary | src/pages/Cart.js:89-96 | The summary's subtotal is the cart's subtotal. With non-negative prices and quantities and no coupon or a catalogue coupon, the total is exactly subtotal + shipping + tax − discount, never clamped. |
| CartPage.TaxIgnoresCoupon | src/pages/Cart.js:92 | Tax is 8% of the subtotal whatever the coupon. |
| CartPage.TotalUnclamped | src/pages/Cart.js:89-96 | For a non-negative subtotal with no coupon or a catalogue coupon, the floor at 0 never engages. The total is then at least the shipping plus the tax. |
| CartPage.WorkedExample | src/pages/Cart.js:89-96 | Subtotal 80 with WELCOME15 gives discount 12, shipping 5, tax 6.4 and total 79.4. |
| CartPage.ShippingProgress | src/pages/Cart.js:101-104 | Progress lies in [0, 100] for a non-negative subtotal. It is 100 from a subtotal of 100 up, and equals the subtotal below 100. |
| CartPage.CartView.constructor | src/pages/Cart.js:35-37 | The page starts with an empty entry, error and success text over the given session. |
| Home.MatchesSearch | src/pages/Home.js:63-67 | The lower-cased term occurs in the lower-cased name, description or category. An empty term matches every product; SearchIff states the substring test exactly. |
| Home.Selected | src/pages/Home.js:63-79 | The effect keeps a product when the search matches, the category is 'All' or equal, and each non-blank price bound holds inclusively. A minimum above the maximum keeps nothing. |
| Home.SearchIff | src/pages/Home.js:63-67 | A product is kept exactly when the lower-cased term occurs in its lower-cased name, description or category. Lower-casing the term changes nothing. |
| Home.ApplyFilters | src/pages/Home.js:63-79 | The filtered list holds every product passing the search, category (unless 'All') and inclusive price bounds (each skipped when blank), as often as the catalogue does, and nothing else. |
| Home.SortOrderTotal | src/pages/Home.js:81-104 | Every sort key's comparator is total and transitive, so sorting by it orders the whole list. |
| Home.SortOrder | src/pages/Home.js:81-104 | Each sort key has its comparator, read as "may come first". Every key other than the five named ones, 'trending' among them, orders by the featured score, highest first. |
| Home.SortedByKey | src/pages/Home.js:81-104 | A list sorted by a key is ordered as follows: 'price-low' by non-decreasing price; 'price-high' by non-increasing price; 'rating' by non-increasing rating; 'name' by name; 'popular' by non-increasing sales. Any other key orders by non-increasing rating·2 + sales/100. |
| Home.FilterAndSort | src/pages/Home.js:63-106 | The shown list is a permutation of the selected products and a subset of the catalogue, sorted by the chosen key with each key's ordering spelled out. |
| Home.TrendingKeyIsFeatured | src/pages/Home.js:97-103 | The menu's 'trending' option has no case of its own and sorts like 'default' by the featured score. |
| Home.DefaultQuerySelectsAll | src/pages/Home.js:123-128 | After Clear All every product is selected. |
| Home.Trending | src/pages/Home.js:28-31 | Exactly min(8, number of candidates) products, drawn from the catalogue, each with sales over 100 or rating at least 4.5, in non-increasing sales × rating order. No candidate left out scores above one taken. |
| Home.TrendingIsTop | src/pages/Home.js:28-31 | The first eight of the sorted candidates: exactly min(8, number of candidates) of them, all candidates, from the catalogue, in non-increasing sales × rating order, and none left out scores higher. |
| Home.CategoryFilterCount | src/pages/Home.js:136 | The number of products kept by the category filter is the category's multiplicity among the products' categories. |
| Home.CategoryCount | src/pages/Home.js:134-137 | 'All' counts every product. Any other category counts the products whose category it is. |
| Home.JsRem | src/pages/Home.js:142 | JavaScript's `%`: the remainder has the dividend's sign, is smaller than the divisor in magnitude, and differs from the dividend by a multiple of the divisor, which pins it uniquely. |
| Home.NextDeal | src/pages/Home.js:142 | The rotated deal index stays in [0, 3); it is the next index, and after the last deal (index 2) it wraps to 0. |
| Home.DealCycle | src/pages/Home.js:142 | Three rotations bring a deal back, and none of the first two does. |
| Home.HomeView.constructor | src/pages/Home.js:16-25 | The page starts with an empty query, category 'All', sort 'default', no products shown and deal 0. |
| Home.HomeView.Refresh | src/pages/Home.js:63-106 | The shown list becomes exactly the selected products, by multiplicity, sorted by the current key. |
| Home.HomeView.ClearAll | src/pages/Home.js:123-128 | The term and bounds become empty, the category 'All' and the sort 'default'. |
| Home.HomeView.RotateDeal | src/pages/Home.js:142 | The deal index becomes its rotation and stays in range. |
| FilterSidebar.ToggleSpec | src/components/FilterSidebar.js:102-124 | Toggling an absent value appends it once. Toggling a present value removes every occurrence. All other values keep their multiplicity. |
| FilterSidebar.ToggleTwice | src/components/FilterSidebar.js:102-108 | Toggling a value twice, starting from a list without it, restores the list. |
| FilterSidebar.Toggle | src/components/FilterSidebar.js:102-124 | After a toggle the value is present exactly when it was absent before. Every other value present before is kept, and nothing but the value is added. |
| FilterSidebar.CategoryCounts | src/components/FilterSidebar.js:41-49 | The map has 'All' with the product count plus exactly the listed categories. Each category carries getCategoryCount's number. |
| FilterSidebar.ProductBrands | src/components/FilterSidebar.js:52-60 | The brands have no duplicates and are sorted. A brand is listed exactly when it is non-empty and some product has it. |
| FilterSidebar.LexOrderTotal | src/components/FilterSidebar.js:59 | The default string order is a total preorder. |
| FilterSidebar.RatingCount | src/components/FilterSidebar.js:150-155 | A threshold count never exceeds the number of products. |
| FilterSidebar.RatingCountMonotone | src/components/FilterSidebar.js:150-155 | A higher threshold counts no more products. |
| FilterSidebar.RatingOptions | src/components/FilterSidebar.js:150-155 | There are four options with thresholds 4.5, 4, 3.5 and 3, in that order. Each counts the products rated at least its threshold, so the counts are non-decreasing down the list. |
| FilterSidebar.SliderUpdate | src/components/FilterSidebar.js:83-92 | A 'min' update sets only the low end, to min(parseInt(v) or 0, sliderMax − 1). A 'max' update sets only the high end, to max(value or 0, sliderMin + 1). |
| FilterSidebar.SliderInRange | src/components/FilterSidebar.js:83-92 | A value strictly inside the slider's span is taken unchanged at either end. |
| FilterSidebar.MinPrice | src/components/FilterSidebar.js:65 | The smallest price is one of the prices and at most each of them. |
| FilterSidebar.MaxPrice | src/components/FilterSidebar.js:66 | The largest price is one of the prices and at least each of them. |
| FilterSidebar.SliderBounds | src/components/FilterSidebar.js:63-67 | A non-empty catalogue gives floor(min) ≤ ceil(max), enclosing every price. The bounds are tight: some price is below the low bound + 1 and some above the high bound − 1. An empty catalogue gives none. |
| FilterSidebar.ToggleActivates | src/components/FilterSidebar.js:166-174 | Picking any rating, brand or feature into an empty selection makes the filters active. |
| FilterSidebar.AnyActive | src/components/FilterSidebar.js:166-174 | No filter is active exactly in the Clear All state: category 'All', price range from blank to the slider's top, no rating, brand or feature, sort 'default'. |
| FilterSidebar.SidebarState.constructor | src/components/FilterSidebar.js:30-38 | The sidebar starts with the page's category, sort and range, empty lists and the 0..2000 slider. |
| FilterSidebar.SidebarState.InitSliderBounds | src/components/FilterSidebar.js:63-74 | The slider takes the catalogue's bounds. A blank high end becomes the top bound, and the rest of the range is kept. |
| FilterSidebar.SidebarState.HasActiveFilters | src/components/FilterSidebar.js:166-174 | The sidebar shows no active filter exactly when its fields are in the Clear All state. |
| FilterSidebar.SidebarState.SliderChange | src/components/FilterSidebar.js:83-92 | The local range becomes SliderUpdate of the old one. |
| FilterSidebar.SidebarState.ApplyPriceRange | src/components/FilterSidebar.js:94-96 | Blur and Apply hand the local range to the page. |
| FilterSidebar.SidebarState.QuickPrice | src/components/FilterSidebar.js:360-363 | A quick price button sets and applies the range 0..price. |
| FilterSidebar.SidebarState.SelectCategory | src/components/FilterSidebar.js:98-100 | The chosen category is handed to the page. |
| FilterSidebar.SidebarState.ToggleRating | src/components/FilterSidebar.js:102-108 | The rating list is toggled, and a non-empty list makes the filters active. |
| FilterSidebar.SidebarState.ToggleBrand | src/components/FilterSidebar.js:110-116 | The brand list is toggled, and a non-empty list makes the filters active. |
| FilterSidebar.SidebarState.ToggleFeature | src/components/FilterSidebar.js:118-124 | The feature list is toggled, and a non-empty list makes the filters active. |
| FilterSidebar.SidebarState.ClearAll | src/components/FilterSidebar.js:126-134 | Clear All does the following: category 'All' and sort 'default'; local and applied range ('', sliderMax); empty lists. The filters are then inactive. |
| Dashboard.TotalRevenue | src/pages/Dashboard.js:16 | Revenue is the sum of order totals, non-negative when they are. |
| Dashboard.AverageOrderValue | src/pages/Dashboard.js:17-18 | The average is 0 with no orders; otherwise average × count is the revenue. |
| Dashboard.RevenueBounds | src/pages/Dashboard.js:16 | With every total in [lo, hi], the revenue lies in [n·lo, n·hi]. |
| Dashboard.AverageBetween | src/pages/Dashboard.js:16-18 | The average of some orders lies between their smallest and largest totals. |
| Dashboard.SalesOrderTotal | src/pages/Dashboard.js:24 | The comparator `b.sales - a.sales` is a total preorder. |
| Dashboard.TopSelling | src/pages/Dashboard.js:23-25 | The result is min(5, n) products drawn from the catalogue, in non-increasing sales order. No product left out sold more than one taken. The catalogue itself is unchanged. |
| Dashboard.TopSellingIsTop | src/pages/Dashboard.js:23-25 | The first five of the sorted copy are the top five by sales. |
| Dashboard.LowStock | src/pages/Dashboard.js:27 | Every listed product has fewer than 10 in stock, and each appears at most as often as in the catalogue. |
| Dashboard.LowStockExact | src/pages/Dashboard.js:27 | Exactly the products with stock below 10 are kept, each as often as in the catalogue. |
| Dashboard.LowStockKeepsOrder | src/pages/Dashboard.js:27 | The low-stock list of a concatenation is the two lists joined, so catalogue order is kept. |
| Dashboard.RecentOrders | src/pages/Dashboard.js:28 | The result is the first min(5, n) orders. |
| Dashboard.MaxSales | src/pages/Dashboard.js:51 | The maximum is some month's sales and at least every month's. It is absent only for no data. |
| Dashboard.BarHeight | src/pages/Dashboard.js:251 | A bar has a height exactly when the maximum is non-zero, and then height × maximum = sales × 160, so the height is in proportion to the sales. |
| Dashboard.BarHeightMonotone | src/pages/Dashboard.js:251 | Under one positive maximum, more sales never give a lower bar. |
| Dashboard.BarHeightBounds | src/pages/Dashboard.js:251 | With non-negative sales every bar is 0..160 px high, and the largest month is exactly 160. |
| Dashboard.SampleRevenue | src/data/products.js:177-185 | The sample orders total 2029.87 over seven, and the recent list is the first five. |
| Dashboard.SampleChartPeak | src/data/products.js:187-200 | December's 8200 is the sample chart's maximum and draws a full-height bar. |
| Settings.WithField | src/pages/Settings.js:63-68 | Typing sets only the named password field; the other two are unchanged. |
| Settings.WithFieldOverwrite | src/pages/Settings.js:63-68 | A second edit of a field overrides the first, and writing a field's own value back changes nothing. |
| Settings.CheckPassword | src/pages/Settings.js:70-81 | The confirmation must match, checked before length. A match is accepted exactly when the password is at least 8 UTF-16 units long. |
| Settings.PasswordVerdict.Message | src/pages/Settings.js:71-80 | Each outcome has its own alert text, and each text belongs to exactly one outcome. |
| Settings.AfterUpdate | src/pages/Settings.js:70-81 | The form is cleared on success and kept as entered on either rejection. |
| Settings.CurrentPasswordIgnored | src/pages/Settings.js:70-81 | The current-password field plays no part in the decision. |
| Settings.ResubmitVerdict | src/pages/Settings.js:70-81 | Resubmitting a rejected form fails for the same reason. Resubmitting after success fails as too short. |
| Settings.CheckPasswordRejections | src/pages/Settings.js:71-78 | A mismatch is reported even when both entries are short; seven letters are too short. |
| Settings.CheckPasswordAcceptances | src/pages/Settings.js:75-80 | Eight letters are accepted, and so are four emoji, counted as eight UTF-16 units. |
| Settings.SettingsView.constructor | src/pages/Settings.js:12-31 | The page starts with the default preferences, JSON export and an empty password form. |
| Settings.SettingsView.ResetSettings | src/pages/Settings.js:49-61 | The toggles reset to on, off, off, on, off, on, off, and the selections to English, USD, America/New_York. The password form is emptied and the export format kept. The result is the same from any state, so resetting is idempotent. |
| Settings.SettingsView.PasswordChange | src/pages/Settings.js:63-68 | The form becomes WithField of the old form. |
| Settings.SettingsView.UpdatePassword | src/pages/Settings.js:70-81 | It returns the alert text of the verdict on the entered form, and the form becomes the form after that verdict. |
| Sequences.Filter | src/pages/Home.js:63-79 | `filter` keeps exactly the elements passing the test, each at most as often as in the input, and never lengthens the list. Order is stated by FilterAppend. |
| Sequences.FilterMultiplicity | src/pages/Dashboard.js:27 | A passing element keeps its multiplicity; a failing one has none. |
| Sequences.FilterAppend | src/pages/Dashboard.js:27 | Filtering a concatenation filters each part. |
| Sequences.Sort | src/pages/Home.js:81-104 | The comparator sort is a permutation of its input. |
| Sequences.SortSorted | src/pages/Home.js:81-104 | With a total-preorder comparator the result is sorted. |
| Sequences.SortDistinct | src/components/FilterSidebar.js:59 | Sorting a duplicate-free list keeps it duplicate-free and with the same members. |
| Sequences.Take | src/pages/Dashboard.js:28 | `slice(0, n)` is the prefix of length min(n, length). |
| Sequences.TopOf | src/pages/Dashboard.js:23-25 | The first n of a sorted copy are drawn from the list, sorted, and come before every element left behind. |
| Text.ToLower | src/pages/Home.js:64-66 | Lower-casing keeps the length and maps each character. |
| Text.ToLowerIdempotent | src/pages/Home.js:64-66 | Lower-casing twice is lower-casing once. |
| Text.ToUpper | src/context/CartContext.js:110 | Upper-casing keeps the length and maps each character. |
| Text.ContainsIff | src/pages/Home.js:64-66 | `includes` holds exactly when the term occurs at some position. |
| Text.TrimEmptyIff | src/pages/Cart.js:65 | `trim()` is empty exactly when the text is whitespace only. |
| Text.Utf16Length | src/pages/Settings.js:75 | JavaScript's `length` is between 1 and 2 units per character, and equals the character count inside the Basic Multilingual Plane. |
| Text.LexLeTotal | src/pages/Home.js:92 | The name order relates any two names. |
| Text.LexLeTransitive | src/pages/Home.js:92 | The name order is transitive. |
| Text.NatToString | src/context/CartContext.js:117 | The rendering of a number is a non-empty digit string with no leading zero. |
| Text.NatToStringRoundTrip | src/context/CartContext.js:117 | Reading the digits back gives the number. |

## Left out

- Browser storage: persistence and JSON rehydration of the cart and saved list (src/context/CartContext.js:14-22, 33-40) are I/O. The session's constructor takes the rehydrated lists as parameters.
- The `addedAt` timestamp reads the clock (src/context/CartContext.js:55). It is a string parameter of AddLine and AddToCart.
- Timers are not modelled: the 300 ms debounce of the filter effect, the deal rotation interval, `triggerAnimation` and the 3-second success-banner timeout. Refresh and RotateDeal model one run of the effect body and one interval tick.
- React batching and closures are not modelled: each handler is one atomic step on the current state. moveToCart is addToCart followed by the saved-list filter, both on the same state.
- Floating point is not modelled: money is exact `real`, so float rounding and `toFixed` display formatting are absent.
- Text.LexLe: `localeCompare`, and the default `sort()` of the brands, are modelled as lexicographic order on code points. Locale collation is not modelled. JavaScript's default `sort()` compares UTF-16 code units instead, and the two orders differ when a character above U+FFFF meets one in U+E000–U+FFFF.
- Text.ToLower: `toLowerCase` and `toUpperCase` map only ASCII letters. Other scripts' case mappings are not modelled.
- `parseFloat` and `parseInt` of free text are not modelled. The price bounds are Blank or a whole number, the only texts the sidebar writes. The slider takes the already-parsed optional integer, with `|| 0` written out as ParsedOrZero.
- Sequences.Sort: JavaScript's sort is in place on a fresh local array. Here it is a function on sequences; permutation and sortedness are proved, but stability is not stated. Trending and TopSelling therefore do not say which of several equally scored products is kept.
- FilterSidebar.SliderBounds: `Math.min()`/`Math.max()` of no prices give ±Infinity. The model returns None and InitSliderBounds then leaves the slider unchanged.
- Dashboard.MaxSales: `Math.max` of no sales gives -Infinity, modelled as None. Dashboard.BarHeight for a zero maximum (a division by zero, NaN px) is None.
- The success banner, and the summary label, print "% off" even for the fixed FREESHIP coupon (src/pages/Cart.js:72, 528). SuccessText models the banner text, and the label is not modelled.
- Saved items are product snapshots: the page passes a cart line to saveForLater, and its extra fields are not stored.
- Settings' browser dialogs (`alert`) are modelled as the returned alert text. The data export, the account deletion and the `confirm`/`prompt` flows (src/pages/Settings.js:83-100) are not modelled.
- `handleSaveSettings` only logs the preferences, and is not modelled. The toggle and select handlers (single setter calls in the markup) and the tab and password-visibility toggles are not modelled either.
- The coupon catalogue's unused setter is not modelled; the catalogue is a constant.
- The navigation bar, profile page, product card and login page are presentation only and are not part of this model. The static data file supplies the sample orders and sales used by the dashboard lemmas.
