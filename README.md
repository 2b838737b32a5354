# Protocol Zero shop: a verified model of the storefront and community logic

Protocol Zero is a Next.js site for an airsoft field. It has a small shop with a
browser-side cart and checkout by e-mail, guest sign-ups for game days, a feed
of YouTube clips with tags and likes, and a weekly schedule on its home page.
This project models that logic in Dafny and proves what it promises:

- The cart is kept in browser storage: add, remove, update a quantity, clear, and the totals (`Cart`).
- The product catalogue and its lookups (`Products`) and the checkout summary (`CheckoutSummary`).
- The checkout page builds the order e-mail, line by line, and its subject (`Checkout`).
- Player sign-ups are stored and counted per date (`Signups`).
- Guests sign up on the guest page (`GuestSignupPage`) and in the guest widget (`GuestSignupWidget`).
- The clip store: add, list by tag, toggle a like, and the like marks, link check and relative times (`Clips`).
- The clips page filters, sorts, likes optimistically and checks uploads (`ClipsPage`).
- The home page shows the week, hours and prices (`Schedule`).
- The toast list (`Toasts`).
- The product upload script reshapes catalogue records (`UploadProducts`).

`Common` holds the shared values:

- `Option` and `Result` (a value or a thrown error's message);
- `Field`, for a value that is undefined, null or set;
- the signed-in `User`;
- browser storage (`LocalStorage`);
- order-keeping filters.

`Text` holds JavaScript's `trim`, `toFixed(2)` on whole cents, and the decimal digits, each with a parser that
reads them back.

Modelling choices, in the system's terms:

- **Prices and totals.** Prices are whole cents (`priceCents` stands for the decimal `price_cad`). A total is therefore exact, and `toFixed(2)` is a formatting of cents.
- **Stored collections.** The Firestore collections become sequence fields of classes: `SignupRepository.records` and `ClipRepository.docs`.
  - A write that may fail becomes an `insertFails` parameter.
  - An id the store would assign becomes a `freshId` parameter.
  - The time the store would record becomes a `now` parameter.
- **Browser storage.** `localStorage` is a map from key to text. A guest marker counts as set when its key holds a non-empty text, which is how JavaScript reads the truthiness of `getItem`.
- **The page components.** Each page component is a class whose fields are its React state. Each event handler is a method, and its contract gives the new state.
  - An `alert` is recorded as the page's last alert.
  - A navigation is appended to a route list.
- **Messages.** The user-facing messages are datatypes with a `Message` function that gives their exact text.
- **Blank names.** Both guest forms test `!name.trim()`, which is `IsBlank(name)`. The lemma `Text.TrimEmptyIffBlank` proves that the two agree.
- **Dates on the home page.** A date is a day number counted from 1 January 1970, so `getDay()` is `(day + 4) % 7`.
- **The YouTube link.** The link's regular expression is not modelled. Its seventh capture group is an input: a value for `ExtractYouTubeId`, and a function of the URL for `HandleUpload`, which applies it to the form's URL. The model checks the group's length of 11.
- **Relative times.** `formatTimeAgo` takes the elapsed milliseconds and the locale date text as inputs.

Where the documented design and the code differ, or the code differs from itself, the model follows the code, except for the one call named in the first item:

- `lib/signups.ts:13` declares `addSignup(userId, username, date)`, but the guest forms call it with one record object. As written, the document that call builds has `username` and `date` undefined. The store is opened with default settings (`lib/firebase.ts:30`), which refuse a document with an undefined field, so as written every accepted guest submit ends in the forms' failure branch. The model keeps that failure as the `insertFails` path of both forms. Its success path stores the record the guest forms mean to write (`Signups.Signup`). Players' sign-ups are built by `Signups.PlayerSignup` from the three declared arguments.
- The documented design caps only anonymous guest sign-ups with the per-date marker. The page does this (`app/guest-signup/page.tsx:29-34`, `45`). The widget checks and sets the marker for every submitter, and it writes no sponsor fields (`components/guest-signup.tsx:19-31`).

## Model

| member | source | states |
|---|---|---|
| Common.OrElse | app/clips/page.tsx:160-161 | `a \|\| b` on an optional text: the fallback exactly when the value is missing or empty |
| Common.LocalStorage.SetItem | components/guest-signup.tsx:31 | `setItem` replaces that key's value and leaves every other key alone |
| Common.Without | lib/cart.ts:42 | `filter(y => y !== x)`: x is gone, every other element stays, nothing new appears |
| Common.FilterMap | lib/clips.ts:68-80 | `filter(keep).map(f)`: the image of every kept element is in the result, every result element is the image of a kept one, and the result is no longer than the input; order and multiplicity are fixed by `FilterMapAppend` and `FilterMapSingle` |
| Common.FilterMapAppend | lib/clips.ts:68-80 | `filter(keep).map(f)` keeps order: on two pieces laid end to end it is the two results laid end to end |
| Common.FilterMapSingle | lib/clips.ts:68-80 | on one element, the image exactly when the element is kept |
| Common.FilterMapKeepsAll | lib/clips.ts:68-80 | when every element is kept, the result is the element-wise image, in order |
| Common.WithoutAbsent | app/clips/page.tsx:106-110 | filtering out an absent value gives back the same sequence |
| Common.WithoutConcat | app/clips/page.tsx:106-110 | the filter distributes over concatenation |
| Common.WithoutSingle | app/clips/page.tsx:106-110 | removing the only occurrence of a value shortens the sequence by exactly one |
| Text.TrimStart | app/guest-signup/page.tsx:37 | drops only a leading run of whitespace: the result is a suffix, the cut part is blank, and the result starts with a non-space |
| Text.TrimEnd | app/guest-signup/page.tsx:37 | drops only a trailing run of whitespace: the result is a prefix, the cut part is blank, and the result ends with a non-space |
| Text.Trim | app/guest-signup/page.tsx:37 | the result is a slice of the input with only whitespace before and after it, and it neither starts nor ends with whitespace |
| Text.TrimBothEnds | app/guest-signup/page.tsx:37 | the trimmed text sits in the input right after the cut leading whitespace, with only whitespace after it |
| Text.TrimEmptyIffBlank | app/guest-signup/page.tsx:21 | `!name.trim()` holds exactly when the name is all whitespace |
| Text.TrimmedNotBlank | app/guest-signup/page.tsx:37 | a name that is not blank keeps a non-empty, non-blank trimmed form |
| Text.TrimIdempotent | app/guest-signup/page.tsx:37 | trimming twice is trimming once |
| Text.FlatMapAppend | app/checkout/page.tsx:36-41 | the lines built for two carts laid end to end are the two lines built separately |
| Text.FlatMapLength | app/checkout/page.tsx:36-41 | k lines per item give k × items lines |
| Text.FlatMapBlocks | app/checkout/page.tsx:36-41 | item i's lines sit at positions k·i to k·i + k |
| Text.ConcatWithAppend | app/checkout/page.tsx:34-62 | appending text line by line distributes over a split of the lines |
| Text.ConcatWithEmptyIff | app/checkout/page.tsx:45-51 | the joined text is empty exactly when every line renders empty |
| Text.NatToString | app/checkout/page.tsx:40 | a decimal numeral: at least one digit, all digits, and no leading zero |
| Text.ParseNatToString | app/checkout/page.tsx:40 | reading the numeral back gives the number |
| Text.IntToString | app/checkout/page.tsx:40 | a sign exactly for negative numbers |
| Text.IntToStringRoundTrip | app/checkout/page.tsx:40 | a signed numeral reads back to the same integer |
| Text.UnsignedCents | app/checkout/page.tsx:40 | `toFixed(2)` of a non-negative amount: digits, a point, and exactly two decimals |
| Text.FormatCents | app/checkout/page.tsx:40 | `toFixed(2)` of any amount: at least 4 characters, a leading minus exactly for negative amounts |
| Text.UnsignedCentsRoundTrip | app/checkout/page.tsx:40 | the two-decimal text reads back to the same number of cents |
| Text.FormatCentsRoundTrip | app/checkout/page.tsx:40 | the signed two-decimal text reads back to the same number of cents |
| Products.FirstWithId | lib/products.ts:79 | `find`: an index holding that id with no earlier entry holding it, or none when no entry has it |
| Products.GetProductById | lib/products.ts:78-80 | getProductById returns a catalogue entry with that id, and undefined exactly when no entry has it |
| Products.CatalogueIdsDistinct | lib/products.ts:13-75 | no two catalogue entries share an id |
| Products.GetProductByIdFindsEntry | lib/products.ts:78-80 | looking up any entry's id returns that entry |
| Products.FilterByCategoryAppend | lib/products.ts:84 | `filter` keeps order and every copy: on two pieces laid end to end it is the two results laid end to end |
| Products.FilterByCategorySingle | lib/products.ts:84 | on one entry, the entry exactly when it has the category |
| Products.FilterByCategory | lib/products.ts:84 | `filter(p => p.category === category)`: exactly the entries with that category, in catalogue order; repeated entries keep every copy, by `FilterByCategoryAppend` and `FilterByCategorySingle` |
| Products.GetProductsByCategory | lib/products.ts:83-85 | getProductsByCategory is exactly the catalogue entries of that category, in order |
| Products.GetFeaturedProducts | lib/products.ts:88-90 | `slice(0, count)`: a prefix of the catalogue, of length count clamped to the catalogue, measured from the end for a negative count |
| Cart.Total | lib/cart.ts:70-75 | getCartTotal, defined as price × quantity summed over the rows; `TotalsFromFront` proves that it is the front-to-back `reduce` |
| Cart.ItemCount | lib/cart.ts:77-79 | getCartItemCount, defined as the quantities summed over the rows; `TotalsFromFront` proves that it is the front-to-back `reduce` |
| Cart.TotalsFromFront | lib/cart.ts:70-79 | the total and the item count also fold from the front: the first row's share plus the rest |
| Cart.FindRow | lib/cart.ts:28 | `cart.find` by product id: the first row with that id, none exactly when no row has it |
| Cart.WithQuantity | lib/cart.ts:55 | setting one row's quantity changes that row only |
| Cart.Removed | lib/cart.ts:40-44 | removeFromCart keeps exactly the rows of other products, in order |
| Cart.Added | lib/cart.ts:26-37 | the rows addToCart saves; `AddedShape`, `AddedTotals` and `AddedKeepsUniqueIds` state what it does |
| Cart.AddedKeepsUniqueIds | lib/cart.ts:26-37 | adding keeps at most one row per product |
| Cart.AddedShape | lib/cart.ts:28-34 | adding an id already present grows that row's quantity in place; otherwise one row is appended at the end |
| Cart.ChangedRowTotals | lib/cart.ts:70-79 | changing one row's quantity by d moves the total by price × d and the count by d |
| Cart.AddedTotals | lib/cart.ts:26-37 | adding q of a product raises the total by price × q and the count by q |
| Cart.WithQuantityTotals | lib/cart.ts:47-59 | updating a quantity moves the totals by the difference |
| Cart.AppendedTotals | lib/cart.ts:70-79 | an appended row adds its line total and its quantity |
| Cart.RemovedAbsent | lib/cart.ts:40-44 | removing an id no row carries changes nothing |
| Cart.RemovedKeepsUniqueIds | lib/cart.ts:40-44 | removing keeps at most one row per product |
| Cart.ItemCountAtLeastRows | lib/cart.ts:77-79 | with positive quantities the item count is at least the number of rows |
| Cart.CartStore.GetCart | lib/cart.ts:11-15 | the stored rows, or none when nothing is stored or there is no window |
| Cart.CartStore.SaveCart | lib/cart.ts:18-23 | with a window, the rows are stored and one change notification is sent; without one, nothing happens |
| Cart.CartStore.AddToCart | lib/cart.ts:26-37 | the stored cart becomes the added rows, with one notification; without a window nothing changes |
| Cart.CartStore.RemoveFromCart | lib/cart.ts:40-44 | the stored cart loses that product's rows, with one notification |
| Cart.CartStore.UpdateQuantity | lib/cart.ts:47-59 | an absent product changes nothing; a quantity ≤ 0 removes the row; otherwise only that row's quantity changes |
| Cart.CartStore.ClearCart | lib/cart.ts:62-67 | the stored cart is removed, the cart reads as empty, and one notification is sent |
| CheckoutSummary.Reduce | components/checkout-summary.tsx:10 | the summary's `reduce` with its accumulator; `ReduceIsTotal` proves that it ends at acc plus getCartTotal |
| CheckoutSummary.Subtotal | components/checkout-summary.tsx:10 | the subtotal, the `reduce` from 0; `SubtotalIsCartTotal` proves that it equals getCartTotal |
| CheckoutSummary.ReduceIsTotal | components/checkout-summary.tsx:10 | the fold from acc ends at acc plus the cart total |
| CheckoutSummary.SubtotalIsCartTotal | components/checkout-summary.tsx:10 | the summary subtotal equals getCartTotal, 0 for an empty cart |
| CheckoutSummary.RowOf | components/checkout-summary.tsx:16-25 | a row shows the title, the variant, "Qty: " with the quantity, and "$" with price × quantity to two decimals |
| CheckoutSummary.SummaryRows | components/checkout-summary.tsx:16 | one row per cart item, in cart order |
| CheckoutSummary.TotalText | components/checkout-summary.tsx:32 | "$", the subtotal to two decimals, " CAD" |
| Checkout.EmailLines | app/checkout/page.tsx:34-62 | every `body +=` of generateEmailBody in order; `ItemBlockAt`, `TotalsAfterItems` and `CustomerSectionPresence` state where each line sits |
| Checkout.EmailBody | app/checkout/page.tsx:34-62 | the text of those lines joined; `BodyStartsWithItems`, `BodyEndsWithMemo` and `AmountMatchesSummary` state its shape |
| Checkout.Subject | app/checkout/page.tsx:65 | the subject is "Order " followed by exactly the order id |
| Checkout.ItemLines | app/checkout/page.tsx:37-40 | each item contributes exactly three lines |
| Checkout.ItemBlockAt | app/checkout/page.tsx:35-41 | after "Order Details:", item i's lines (title, SKU, quantity × price = line total) sit at 1 + 3i in cart order |
| Checkout.TotalsAfterItems | app/checkout/page.tsx:42-43 | the items are followed by the "---" rule and the subtotal line carrying getCartTotal |
| Checkout.CustomerSectionPresence | app/checkout/page.tsx:45-51 | the customer section is present, as lines and as text, exactly when name, email or phone is non-empty |
| Checkout.CustomerSectionFields | app/checkout/page.tsx:47-49 | each field's line is present exactly when that field is non-empty |
| Checkout.BodyStartsWithItems | app/checkout/page.tsx:35-41 | the body text starts with "Order Details:\n\n" followed by the item blocks' text |
| Checkout.BodyEndsWithMemo | app/checkout/page.tsx:59 | the body ends with "Memo: Order <orderId>" |
| Checkout.AmountMatchesSummary | app/checkout/page.tsx:58 | the amount line shows the same total text as the summary, and it reads back to the cart total |
| Checkout.ExampleOrder | app/checkout/page.tsx:35-43 | for two MOLLE panels and one grenade set, whatever the order id and contact fields: 3 items, lines 1-6 are the two item blocks in cart order with their titles, SKUs, quantities, prices and line totals, and line 8 is the 99.97 subtotal |
| Checkout.FormatsOfExample | app/checkout/page.tsx:40 | the example's amounts format as "99.97", "49.98" and "49.99" |
| Checkout.CheckoutPage.Mount | app/checkout/page.tsx:22-30 | the page loads the stored cart and a new order id, and navigates to "/" exactly when the cart is empty |
| Checkout.CheckoutPage.RendersNothing | app/checkout/page.tsx:78-80 | the page renders nothing exactly while the cart is empty |
| Checkout.CheckoutPage.Append | app/checkout/page.tsx:38 | one `body +=` adds exactly the rendered line, so the body stays the rendering of the lines written so far |
| Checkout.CheckoutPage.AppendItems | app/checkout/page.tsx:36-41 | the `forEach` loop adds exactly the rendered item lines of the cart, in cart order |
| Checkout.CheckoutPage.AppendOptional | app/checkout/page.tsx:47-49 | `if (field) body += …` adds the rendered line exactly when the field is non-empty, and nothing otherwise |
| Checkout.CheckoutPage.AppendCustomer | app/checkout/page.tsx:45-51 | adds exactly the rendered customer section, which is empty when all three fields are |
| Checkout.CheckoutPage.AppendPayment | app/checkout/page.tsx:53-59 | adds exactly the rendered pickup, payment, amount and memo lines |
| Checkout.CheckoutPage.GenerateEmailBody | app/checkout/page.tsx:34-62 | the built body is the e-mail the lemmas above describe, a function of cart, order id, contact fields and store details |
| Checkout.CheckoutPage.PlaceOrder | app/checkout/page.tsx:64-67 | the e-mail carries subject "Order <orderId>" and that body |
| Signups.PlayerSignup | lib/signups.ts:13-21 | addSignup writes the user id, the name and the date, and no guest or sponsor field |
| Signups.GuestMarkerKey | app/guest-signup/page.tsx:30 | the marker key is "guest_signup_" followed by exactly the date |
| Signups.OnDate | lib/signups.ts:26 | the `where('date', '==', date)` query returns exactly the records on that date |
| Signups.CountAfterAppend | lib/signups.ts:13-29 | a new record raises its own date's count by one and no other date's |
| Signups.CountBounds | lib/signups.ts:24-29 | a count is 0 exactly when no record has that date, and never more than the records |
| Signups.Count | lib/signups.ts:24-29 | getSignupCount, the size of the date query; `CountAfterAppend` and `CountBounds` state how it moves and its bounds |
| Signups.SignupRepository.GetSignupCount | lib/signups.ts:24-29 | the count of the stored records on that date; `AddSignupCounts` states that an insert raises it by one for its own date |
| Signups.SignupRepository.AddSignup | lib/signups.ts:13-21 | the record is appended, with no duplicate check |
| Signups.SignupRepository.GetSignupCountsForWeek | lib/signups.ts:32-41 | one count per date, in the dates' order, each the count for that date |
| Signups.AddSignupCounts | lib/signups.ts:13-29 | after addSignup the date's count grows by one and the others stay |
| Signups.DuplicatesCounted | lib/signups.ts:13-21 | the same record stored twice is counted twice |
| GuestSignupPage.Decide | app/guest-signup/page.tsx:18-49 | handleSubmit's checks and the record it builds; `ChecksInOrder`, `SignedInIgnoresMarker` and `AcceptedNameIsTrimmed` state what it decides |
| GuestSignupPage.GuestRecord | app/guest-signup/page.tsx:37-44 | the trimmed name, isGuest, the date; a signed-in sponsor's id, name or "Authenticated User", email or null; anonymous: sponsor id and name absent, email null |
| GuestSignupPage.ChecksInOrder | app/guest-signup/page.tsx:20-34 | blank name, then missing date, then an anonymous submitter's marker; the first failing check decides the error |
| GuestSignupPage.SignedInIgnoresMarker | app/guest-signup/page.tsx:29-34 | a signed-in submitter is never checked against the marker |
| GuestSignupPage.AcceptedNameIsTrimmed | app/guest-signup/page.tsx:37-38 | an accepted record's name is non-empty, trimmed and not blank |
| GuestSignupPage.SecondAnonymousSubmitRefused | app/guest-signup/page.tsx:29-34 | once the marker is set, an anonymous submit for that date is refused |
| GuestSignupPage.GuestSignupPage.constructor | app/guest-signup/page.tsx:11-16 | the date is the `date` parameter or ""; the form starts empty |
| GuestSignupPage.GuestSignupPage.HandleSubmit | app/guest-signup/page.tsx:18-51 | a refusal sets its error and writes nothing; success inserts the record, sets the marker only for anonymous submitters, and sets `submitted`; a failed insert sets the failure error and leaves the marker; `loading` ends false |
| GuestSignupWidget.Decide | components/guest-signup.tsx:11-31 | handleSubmit's checks and the record it builds; `AcceptedIff` and `SecondSubmitRefused` state what it decides |
| GuestSignupWidget.WidgetRecord | components/guest-signup.tsx:26-30 | the trimmed name, isGuest and the date, with no user or sponsor fields |
| GuestSignupWidget.AcceptedIff | components/guest-signup.tsx:14-23 | accepted exactly when the name is not blank and the marker is not set; a blank name is reported first |
| GuestSignupWidget.SecondSubmitRefused | components/guest-signup.tsx:19-31 | after a success sets the marker, the next submit for that date is refused |
| GuestSignupWidget.GuestSignupWidget.HandleSubmit | components/guest-signup.tsx:11-38 | a refusal writes nothing; success inserts, sets the marker to "1" and `submitted`; a failure leaves both |
| Clips.Listed | lib/clips.ts:65-83 | getClips's result in stored order; `ListedExactly` and `ListedAll` state which documents it lists |
| Clips.Created | lib/clips.ts:51-62 | addClip stores the given fields with 0 likes, an empty likedBy, 0 comments and the store's time |
| Clips.ListedExactly | lib/clips.ts:65-83 | getClips lists exactly the documents with a requested tag, as unliked clips |
| Clips.ListedAll | lib/clips.ts:65-83 | without tags, or with an empty tag list, every document is listed in order |
| Clips.Toggled | lib/clips.ts:144-159 | liked exactly when the user was not in likedBy; a like appends the user to likedBy (`[...likedBy, userId]`) and an unlike filters every occurrence out; the count moves by ±1 and no other field changes |
| Clips.ToggleTwiceRestores | lib/clips.ts:144-159 | liking and then unliking restores the clip and reports the original count |
| Clips.UnlikeRemovesEveryOccurrence | lib/clips.ts:147-152 | unliking removes every copy of the user and keeps every other user |
| Clips.MarkClipsAsLiked | lib/clips.ts:163-168 | each clip is kept, with isLiked set exactly when the user is in its likedBy |
| Clips.MarkAfterToggle | lib/clips.ts:133-168 | after a toggle, the like mark agrees with the reported `liked` |
| Clips.IsValidYouTubeUrl | lib/clips.ts:263-265 | whether an id is extracted; `ValidIffElevenCharacters` states when that holds |
| Clips.FormatTimeAgo | lib/clips.ts:270-278 | the relative time text; `TimeAgoReadsBack` states what each bucket reads back to |
| Clips.ExtractYouTubeId | lib/clips.ts:254-258 | an id exactly when the seventh group matched and has 11 characters, and then it is that group |
| Clips.ValidIffElevenCharacters | lib/clips.ts:263-265 | a link is valid exactly when that group has 11 characters |
| Clips.TimeAgoReadsBack | lib/clips.ts:270-278 | under a week the text is a count and a unit that read back to the elapsed whole seconds, rounded down to the unit, in the right range |
| Clips.FindClip | lib/clips.ts:139-142 | the position of the document with that id, none exactly when there is none |
| Clips.ClipRepository.AddClip | lib/clips.ts:51-62 | one document is appended under the new id, holding the created data |
| Clips.ClipRepository.GetClips | lib/clips.ts:65-83 | the loop returns exactly the listed clips |
| Clips.ClipRepository.ToggleLike | lib/clips.ts:133-160 | "Clip not found" and no change for an unknown id; otherwise only that document is replaced by its toggled data |
| ClipsPage.Selected | app/clips/page.tsx:77-90 | the clips the filter effect keeps, in loaded order; `SelectedExactly` and `NoFilterKeepsAll` state which |
| ClipsPage.SelectedExactly | app/clips/page.tsx:77-90 | a clip is shown exactly when it is loaded, has the address's date when one is given, and shares a selected tag when any is selected |
| ClipsPage.NoFilterKeepsAll | app/clips/page.tsx:81-90 | with no date and no tag selected, every clip is shown in order |
| ClipsPage.Swap | app/clips/page.tsx:93-101 | two entries are exchanged and the rest stay |
| ClipsPage.SortByKeyDescending | app/clips/page.tsx:93-101 | the sort is a permutation with non-increasing key |
| ClipsPage.ToggledTags | app/clips/page.tsx:106-110 | the tag becomes selected exactly when it was not, and no other tag changes |
| ClipsPage.ToggleTagTwiceRestores | app/clips/page.tsx:106-110 | toggling an unselected tag twice restores the selection exactly |
| ClipsPage.ToggleKeepsNoDuplicates | app/clips/page.tsx:106-110 | toggling never lists a tag twice |
| ClipsPage.WithoutKeepsNoDuplicates | app/clips/page.tsx:108 | filtering keeps a list free of duplicates |
| ClipsPage.Flipped | app/clips/page.tsx:121-126 | isLiked flips, likes goes −1 if it was liked and +1 otherwise, and nothing else changes |
| ClipsPage.Optimistic | app/clips/page.tsx:119-129 | only the clips with the matching id are flipped; every other clip is unchanged |
| ClipsPage.OptimisticTwiceRestores | app/clips/page.tsx:119-129 | two clicks on a clip with a known like state restore it |
| ClipsPage.UploadRefusal | app/clips/page.tsx:141-155 | handleUpload's checks in order; `UploadChecksInOrder` states which alert each failing check raises |
| ClipsPage.UploadChecksInOrder | app/clips/page.tsx:141-155 | an upload goes ahead exactly when there is a user, a valid link and a title that is not blank; the first failing check decides the alert |
| ClipsPage.UploadedClip | app/clips/page.tsx:158-168 | the uploader's id, the name or "Anonymous", the photo or the logo, and the form's fields |
| ClipsPage.ClipsPageState.LoadClips | app/clips/page.tsx:57-74 | all clips, marked with the viewer's likes when signed in |
| ClipsPage.ClipsPageState.ApplyFilters | app/clips/page.tsx:77-104 | the shown clips are a permutation of the filtered clips, sorted newest or most liked first |
| ClipsPage.ClipsPageState.ToggleTag | app/clips/page.tsx:106-110 | the selection becomes the toggled selection; every other field of the page stays as it was |
| ClipsPage.ClipsPageState.ToggleUploadTag | app/clips/page.tsx:492-496 | the form's tags become the toggled tags; every other field of the page stays as it was |
| ClipsPage.ClipsPageState.ToggleLike | app/clips/page.tsx:112-138 | with no user, an alert and no change to clips or store; otherwise the optimistic update and the store toggle, and an unknown clip reloads; the tags, sort order, form, modal and filtered list never change, and with a user no alert is raised |
| ClipsPage.ClipsPageState.HandleUpload | app/clips/page.tsx:140-179 | a refusal or failed write raises its alert and writes nothing; success appends the clip, whose id is the one captured from its own stored URL, closes the modal, resets the form and reloads; the clips are untouched unless the write happens, and the tags, sort order and filtered list never change |
| Schedule.JsDay | app/page.tsx:10 | `getDay()` lies in 0..6 |
| Schedule.MondayOffset | app/page.tsx:14 | −6 on Sunday and 1 − day otherwise, so between −6 and 0 |
| Schedule.OffsetReachesMonday | app/page.tsx:11-15 | the offset lands on a Monday at most six days back |
| Schedule.GetCurrentWeekDates | app/page.tsx:8-25 | seven consecutive days, starting on a Monday and holding today |
| Schedule.AdjustedIndex | app/page.tsx:127 | Sunday..Saturday map into 0..6 |
| Schedule.AdjustedIndexBijective | app/page.tsx:126-127 | AdjustedIndex and ColumnWeekday undo each other on 0..6, so every weekday has exactly one column |
| Schedule.ColumnWeekday | app/page.tsx:127 | the weekday shown in a column lies in 0..6 |
| Schedule.WeekColumns | app/page.tsx:124-127 | the i-th day of the week is shown in column i |
| Schedule.LateNightIsLastThreeHours | app/page.tsx:34-40 | each late-night window is the last three opening hours of its day |
| Schedule.ClockTexts | app/page.tsx:34-40 | the hour texts, 12-hour clock |
| Schedule.HoursTexts | app/page.tsx:130-136 | the hours texts: "12PM-10PM" Monday to Thursday, "12PM-11PM", "10AM-12AM", "10AM-11PM" |
| Schedule.PricingTexts | app/page.tsx:34-42 | "$25 (7PM-10PM)" Wednesday and Thursday, "$25 (8PM-11PM)" Friday and Sunday, "$25 (9PM-12AM)" Saturday |
| Schedule.GetPricing | app/page.tsx:28-43 | none exactly on Monday and Tuesday; otherwise "$25 (" … ")" |
| Schedule.GetDaySpecial | app/page.tsx:46-58 | an entry exactly for 0..6, always "$50"; discounted, at "$25" and "50% OFF", exactly on Monday and Tuesday |
| Schedule.DiscountOrLateNight | app/page.tsx:28-57 | a day has the all-day discount exactly when it has no late-night price |
| Toasts.RemovedById | components/toast-provider.tsx:35-37 | exactly the toasts with another id remain |
| Toasts.RemoveAbsentId | components/toast-provider.tsx:35-37 | removing an absent id leaves the list unchanged |
| Toasts.RemoveAfterAppend | components/toast-provider.tsx:35-37 | removal keeps the survivors in order: it distributes over an appended toast |
| Toasts.AddThenRemoveRestores | components/toast-provider.tsx:25-37 | with a fresh id, adding and then removing restores the list |
| Toasts.CollidingIdRemovesBoth | components/toast-provider.tsx:26-37 | a colliding id removes the older toast too |
| Toasts.RemoveShrinks | components/toast-provider.tsx:35-37 | removing a present id shortens the list |
| Toasts.ToastProvider.AddToast | components/toast-provider.tsx:25-27 | one toast with the given fields and the id is appended at the end |
| Toasts.ToastProvider.RemoveToast | components/toast-provider.tsx:35-37 | the list becomes the list without that id |
| Toasts.UseToast | components/toast-provider.tsx:75-80 | the provider when one is in scope, otherwise the error "useToast must be used within ToastProvider" |
| UploadProducts.IsCleaned | scripts/upload-products.ts:25-40 | the document cleanProduct builds, key by key; `CleanedIsUnique` proves that it pins the document down |
| UploadProducts.CleanedKeepsWellFormed | scripts/upload-products.ts:32-38 | cleaning adds only named keys, so no property of a well-formed record gets a second representation |
| UploadProducts.Defined | scripts/upload-products.ts:27-30 | exactly the keys with a defined value, copied |
| UploadProducts.CleanedIsUnique | scripts/upload-products.ts:25-40 | the description of the cleaned document fixes it completely |
| UploadProducts.CleanProduct | scripts/upload-products.ts:25-40 | undefined keys are dropped; price, name and description come from price_cad, title and variant; inStock is true; the old names are gone; every other defined key is copied |
| UploadProducts.ProductObject | lib/products.ts:3-12 | a catalogue entry's keys, all defined and well-formed; category only when the entry has one |
| UploadProducts.UploadedProduct | scripts/upload-products.ts:32-38 | a catalogue entry is stored with its price, title and variant under the store's names, in stock, with no old names |

## Left out

- Firestore, the network, and the `requireDb` configuration error: the stores are in-memory sequences, and a failed write is a parameter.
- Server-assigned ids and timestamps of clips: these are `freshId` and `now` parameters. `AddClip` and `HandleUpload` require the id to be fresh, as Firestore guarantees.
- GuestSignupPage.GuestSignupPage.HandleSubmit: as written, the write the page makes (`app/guest-signup/page.tsx:37-44`) is always refused, since `addSignup` receives one record object and builds a document with undefined `username` and `date`. The model's `insertFails` path is that outcome (the "Failed to sign up" message, no marker). Its success path stores the record the page means to write. That path is not reachable with the code as written.
- GuestSignupWidget.GuestSignupWidget.HandleSubmit: the same holds for the widget's write (`components/guest-signup.tsx:26-30`). As written, it always ends in the failure message with no marker set. The model's success path stores the record the widget means to write.
- Signups.SignupRepository.AddSignup: the `timestamp: new Date()` that addSignup adds to every document (`lib/signups.ts:19`) is not stored. `Signups.Signup` has no timestamp field, and no counting operation reads it.
- The random parts: `generateOrderId`, the toast id, and the home page's random check-in counts are parameters or left out.
- Timers: the cart is cleared one second after an order, a toast removes itself after three seconds, and the widget calls its success callback later. The model has the operations these timers call, not the timing.
- The `mailto:` link and `encodeURIComponent`: the model produces the subject and body before they are encoded.
- The `cartUpdated` event is counted as a notification; the listeners are not modelled.
- JSON text in browser storage: the cart is stored as a value, so `JSON.parse` errors are not modelled.
- The YouTube regular expression: its seventh capture group is an input.
- `toLocaleDateString` and the current time: these are inputs of `FormatTimeAgo`.
- Decimal prices: `price_cad` is whole cents, so the binary floating-point error of `toFixed(2)` is not modelled.
- The input handlers (`onChange`), the rendering markup and the router other than the checkout's redirect.
- The React element a toast can carry as its `action`.
- `loadClips`'s caught error, its error message and the `loading` flag: the store model has no failing read.
- ClipsPage.ClipsPageState.ApplyFilters: React reruns this effect after every change to the clips, the tags, the sort order or the date. In the model it is a method that the caller runs after such a change.
- Concurrency between handlers, and React's batching of state updates.
- Time zones and month lengths of `Date`: a date is a day number.
- ClipsPage.SortByKeyDescending: stability is not stated. JavaScript's sort is stable, so clips with equal keys keep their order in the source. The model proves only sortedness and permutation.
- ClipsPage.ClipsPageState.ToggleLike: the state after the reload is stated only for the "not found" failure, the one failure the store model has.
- Clips.ToggleTwiceRestores: a clip with no likedBy list comes back with an empty list, so the lemma requires the list to exist.
- Clips.ClipRepository.GetClips: the query's `orderBy('timestamp', 'desc')` is not modelled; clips are listed in stored order. The clips page sorts what it shows itself (`ApplyFilters`). The conversion of the stored timestamp to a `Date` is not modelled either.
- The guest widget's `onSuccess` callback and the page's navigation after success are not modelled.
