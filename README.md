# Rental marketplace: chat store, inventory and derived views in Dafny

This project models the logic underneath the screens of a mock
student rental marketplace app, and proves properties about that logic.
The app is written in TypeScript with React Native.

- **Chat session store** (`Chat`). This is a process-wide list of chat
  sessions, most recent first. Each session holds its message log.
  - Get-or-create finds a session by display name. If there is none, it
    puts a new one in front.
  - Add-message appends the message to the session's log and moves that
    session to the front.
  - The store is a class over session objects whose logs grow in place.
    Its methods are proved against value-level functions (`WithSession`,
    `WithMessage`).
- **Chat screen** (`ChatScreen`). It covers:
  - the display-name fallback;
  - the "payment completed" auto-message, which is only posted when no
    message with that exact text is already stored;
  - the blank-input guard of send.
- **Payment screen** (`Payment`). It covers the digits-only price parse,
  the fixed fees, and the open-chat action.
  - Open-chat posts the same auto-message unconditionally.
  - `PayThenChat` connects the two screens. It proves that paying and
    then opening the chat stores that message exactly once.
- **Inventory** (`Inventory`). This is the shared list of the user's own
  listings and the "my products" screen that edits it in place. It covers:
  - delete by id;
  - save an edit (title, per-day price, blocked days, and the status they
    imply);
  - the QR-scan hand-over/return status flip;
  - the 28-day blocking calendar;
  - the price field of the edit form.
- **Product context** (`ProductContext`). This is the copy-on-write
  product list: prepend, and a status toggle by id.
- **Derived views**. Each is a pure filter, and the map screen adds a sort:
  - the "all products" feed, with its category and title search and the
    liked-ids toggle (`AllProducts`);
  - the map screen's list, sorted in place by distance or by price
    (`MapScreen`);
  - the details screen (`ProductDetails`), with same-category
    recommendations, the duration stepper, the rental total, and the
    record handed to payment.

`Seqs` and `Text` model the JavaScript library behaviour the code relies
on:
- `find`/`findIndex`/`indexOf` return the first match;
- `splice` followed by `unshift` moves an element to the front;
- `filter`;
- `includes` on strings;
- ASCII `toLowerCase`;
- `replace` with a string pattern, which replaces only the first
  occurrence;
- `replace(/[^0-9]/g, '')` followed by `parseInt`;
- `trim`.

A navigation parameter or record field that is missing is written `""`.
The code reads such fields only where a missing and an empty value
behave alike. The message id and time come from the clock in the app,
so they are parameters here.

## Model

| member | source | states |
|---|---|---|
| Chat.AvatarUrl | utils/chatStore.ts:40 | the generated avatar address of a new session, `https://ui-avatars.com/api/?name=<name>&background=random` |
| Chat.NewSession | utils/chatStore.ts:37-43 | a created session has `id == name`, `unread == 0` and an empty log |
| Chat.Find | utils/chatStore.ts:34 | a session is found iff the name is listed; the one found has that name and is the first such: it sits at a position before which no session has the name |
| Chat.WithSession | utils/chatStore.ts:33-47 | after get-or-create the name is listed, and there is at most one more session; the old list is the tail |
| Chat.WithSessionCases | utils/chatStore.ts:33-47 | a present name leaves the list unchanged and yields its first session; an absent name puts exactly one new session in front of the unchanged old list |
| Chat.WithSessionIdempotent | utils/chatStore.ts:33-47 | get-or-create twice equals get-or-create once |
| Chat.WithSessionKeepsDistinct | utils/chatStore.ts:34-45 | pairwise distinct names stay distinct after get-or-create |
| Chat.WithSessionKeepsIds | utils/chatStore.ts:37-44 | every session keeps `id == name` after get-or-create |
| Chat.SeedChats | utils/chatStore.ts:19-30 | the seeded sessions have distinct names and `id == name` |
| Chat.Pushed | utils/chatStore.ts:61 | pushing onto one session's log extends that log by the message, changes no other field of that session and no other session |
| Chat.WithMessage | utils/chatStore.ts:51-69 | the value of add-message: get-or-create, push onto the found session's log, move that session to the front; the number of sessions is that of get-or-create (its properties are the `WithMessage*` lemmas below) |
| Chat.WithMessageShape | utils/chatStore.ts:63-68 | after add-message the named session is at the front, followed by the previous sessions without it, in their previous order |
| Chat.WithMessageFront | utils/chatStore.ts:52-61 | the front session is the previous (or a new) session with the message at the end of its log and every other field unchanged |
| Chat.WithMessageAppends | utils/chatStore.ts:54-61 | the named log becomes the old log plus exactly the new message |
| Chat.WithMessageCount | utils/chatStore.ts:52 | the session count grows by one for a new name and is unchanged otherwise |
| Chat.WithMessageLeavesOthers | utils/chatStore.ts:52-68 | the session of every other name (log, unread, avatar) is unchanged |
| Chat.FindBehind | utils/chatStore.ts:66 | removing the named session does not change what is found for another name |
| Chat.WithMessageKeepsDistinct | utils/chatStore.ts:52-68 | distinct names stay distinct after add-message |
| Chat.WithMessageKeepsIds | utils/chatStore.ts:52-68 | `id == name` holds for every session after add-message |
| Chat.WithMessageCountText | utils/chatStore.ts:61 | the message's text occurs once more in the named log |
| Chat.ChatStore.Seeded | utils/chatStore.ts:19-30 | the store starts as the seeded sessions, valid |
| Chat.ChatStore.GetOrCreateSession | utils/chatStore.ts:33-48 | returns the listed session of that name; the list is unchanged if one existed, and otherwise a fresh session is put in front |
| Chat.ChatStore.CreateSession | utils/chatStore.ts:36-45 | for an absent name a fresh session with that name goes in front; the store's values become the new session followed by the old ones |
| Chat.ChatStore.PushMessage | utils/chatStore.ts:61 | the session's log gets the message at its end; the store's values change as `Pushed` says |
| Chat.ChatStore.MoveSessionToFront | utils/chatStore.ts:64-68 | the session object at the index is moved to the front, and the others keep their order |
| Chat.ChatStore.AddMessage | utils/chatStore.ts:51-69 | the store's values become `WithMessage` of the old ones; the front is the named session (the same object if it existed); no session object is lost; the store stays valid |
| Seqs.IndexOf | utils/chatStore.ts:64 | `indexOf` is -1 iff the element is absent, and otherwise the first position holding it |
| Seqs.MoveToFrontPermutes | utils/chatStore.ts:66-67 | splice-then-unshift is a permutation |
| Seqs.MoveToFrontDistinct | utils/chatStore.ts:66-67 | splice-then-unshift keeps a list free of repetitions |
| ChatScreen.DisplayName | app/chat.tsx:18 | `lenderName` if given, else `name`, else `'Lender'`; never empty |
| ChatScreen.AutoText | app/chat.tsx:31 | the auto-message template; `Payment.PaidMessage` proves open-chat's text (app/payment.tsx:58) equal to it |
| ChatScreen.AlreadySent | app/chat.tsx:34 | `messages.some(m => m.text === text)`: some message of the log has exactly that text (`AlreadySentIffCounted`) |
| ChatScreen.AlreadySentIffCounted | app/chat.tsx:34 | the de-dup test succeeds iff the text occurs in the log |
| ChatScreen.NoTitleNoEffect | app/chat.tsx:30 | without an item title the effect changes nothing |
| ChatScreen.AfterAutoMessage | app/chat.tsx:29-43 | the value of the auto-message effect: nothing without a title or when the text is already in the log, else add-message of the text as the user; at most one session more |
| ChatScreen.AfterSend | app/chat.tsx:46-54 | the value of send: nothing for a blank input, else add-message of the untrimmed input as the user; at most one session more |
| ChatScreen.AutoMessageStoredOnce | app/chat.tsx:29-43 | with a title, an absent auto-message ends up stored exactly once, and a present one leaves the store unchanged |
| ChatScreen.AutoMessageIdempotent | app/chat.tsx:29-43 | running the effect again stores nothing more |
| ChatScreen.BlankSendNoop | app/chat.tsx:47 | an empty or whitespace-only input leaves the store unchanged |
| ChatScreen.SendAppends | app/chat.tsx:46-54 | a non-blank input is appended untrimmed as the user's message, and the session goes to the front |
| Text.BlankIffAllSpace | app/chat.tsx:47 | `!s.trim()` holds iff every character is JavaScript whitespace |
| ChatScreen.Screen.SessionIsStored | app/chat.tsx:22-23 | the screen's session object holds the log the store has for the display name |
| ChatScreen.Screen.constructor | app/chat.tsx:22-25 | the screen holds the store, the display name, the title and the session fetched for that name, shows that session's log and starts with empty input |
| ChatScreen.Open | app/chat.tsx:18-25 | opening the screen runs get-or-create for the display name (the store becomes `WithSession` of the old one) and shows that session's log with empty input |
| ChatScreen.Mount | app/chat.tsx:18-43 | opening the screen and running its effect leaves the store as `AfterAutoMessage` of `WithSession` of the old one |
| ChatScreen.Screen.Refresh | app/chat.tsx:53 | the shown log becomes the session's current log; the store and the input are unchanged |
| ChatScreen.Screen.Post | app/chat.tsx:50-53 | posts as the user to the screen's session and shows the stored log |
| ChatScreen.Screen.AutoMessage | app/chat.tsx:29-43 | the store changes exactly as `AfterAutoMessage` says; the shown log is refreshed when a message was posted |
| ChatScreen.Screen.HandleSend | app/chat.tsx:46-55 | the store changes exactly as `AfterSend` says; a send clears the input and shows the stored log, and a blank input changes nothing |
| Payment.BasePrice | app/payment.tsx:33-34 | the price's digits, in order, read as a decimal number; 0 when there are none |
| Payment.Total | app/payment.tsx:35-37 | total is base price + 25 + 500, hence at least 525 |
| Payment.BasePriceIgnoresNonDigits | app/payment.tsx:34 | inserting a non-digit character anywhere does not change the base price |
| Payment.BasePriceOfRupeeAmount | app/payment.tsx:34 | `₹N` parses back to `N` |
| Payment.BasePriceOfDailyRate | app/payment.tsx:34 | `₹N/day` parses to `N` |
| Payment.LenderOf | app/payment.tsx:53 | a missing lender defaults to `'Verified User'` |
| Payment.TitleOf | app/payment.tsx:54 | a missing title defaults to `'Item'` |
| Payment.PaidMessage | app/payment.tsx:58 | open-chat's message is the user's, with exactly the text the chat screen builds |
| Payment.OpenChatAppendsOnce | app/payment.tsx:58-59 | open-chat appends exactly that one message to the lender's log, puts the lender's session in front, and raises the text's count by one |
| Payment.PayThenChatStoresOnce | app/payment.tsx:58-59 | open-chat, then the chat screen for the same lender and title: the screen adds nothing, and the message is stored exactly once more than before |
| Payment.PaidStoreIsStable | app/payment.tsx:58-65 | the store open-chat leaves is a fixed point of the chat screen's get-or-create and auto-message effect |
| Payment.HandleOpenChat | app/payment.tsx:52-59 | returns the defaulted lender and title, and changes the store exactly as `WithMessage` with the paid message says |
| Payment.PayThenChat | app/payment.tsx:52-66 | after open-chat and the chat screen it opens, the store is exactly what open-chat left |
| Inventory.Seed | utils/memoryStore.ts:2-21 | the seeded listings have distinct ids |
| Inventory.FindIndex | app/profile/my-products.tsx:62 | -1 iff no listing has the id, otherwise the first listing with it |
| Inventory.WithoutId | app/profile/my-products.tsx:62-65 | the value of a confirmed delete: the first listing with the id is spliced out; one listing fewer iff the id is listed (the `Delete*` lemmas below) |
| Inventory.DeleteRemovesFirst | app/profile/my-products.tsx:62-65 | an absent id changes nothing; otherwise the result is the list with exactly the first listing with the id spliced out (so the rest keep their order) |
| Inventory.DeleteDistinct | app/profile/my-products.tsx:62-65 | with distinct ids a listing survives a delete iff it is not the one with the id |
| Inventory.DeleteOnlyDropsId | app/profile/my-products.tsx:62-65 | with distinct ids every survivor was listed and has another id |
| Inventory.DeleteKeepsOthers | app/profile/my-products.tsx:62-65 | every listing with another id survives |
| Inventory.Saved | app/profile/my-products.tsx:76-79 | sets the title, `₹P/day` and the blocked days; status is Blocked iff there are blocked days and Available otherwise; other fields are kept |
| Inventory.WithSaved | app/profile/my-products.tsx:73-79 | the value of saving an edit: the first listing with the id is replaced by `Saved` of it; ids and their order are unchanged |
| Inventory.SaveChangesOnlyTarget | app/profile/my-products.tsx:74-79 | saving changes only the first listing with the id; a missing id changes nothing |
| Inventory.Flip | app/profile/my-products.tsx:90 | Available becomes Rented, and anything else becomes Available |
| Inventory.WithScan | app/profile/my-products.tsx:88-90 | the value of a scan: the first listing with the id has its status flipped; ids and their order are unchanged |
| Inventory.ScanOnlyStatus | app/profile/my-products.tsx:88-90 | a scan changes only that listing's status |
| Inventory.ScanTwice | app/profile/my-products.tsx:90 | two scans restore an available or rented listing; a blocked one ends rented |
| Inventory.ToggleDay | app/profile/my-products.tsx:100-103 | the value of a calendar tap: a blocked day is filtered out, an unblocked one appended; its properties are `ToggleDayMembership`, `ToggleDayTwice` and `ToggleDayInWindow` |
| Inventory.ToggleDayMembership | app/profile/my-products.tsx:100-103 | the toggled day flips between blocked and not blocked, and every other day keeps its state |
| Inventory.ToggleDayTwice | app/profile/my-products.tsx:100-103 | toggling a day twice restores the set of blocked days |
| Inventory.ToggleDayInWindow | app/profile/my-products.tsx:107-113 | toggling calendar cells 1..28 keeps every blocked day within 1..28 |
| Inventory.EditPrice | app/profile/my-products.tsx:51 | the price the edit form opens with: the first `₹`, then the first `/day`, then the first `/hr` replaced by nothing; its round trip is `EditPriceRoundTrip` |
| Text.ReplaceFirst | app/profile/my-products.tsx:51 | a string without the pattern is unchanged |
| Text.ReplaceFirstAtEnd | app/profile/my-products.tsx:51 | replacing a suffix pattern that does not occur earlier removes exactly that suffix |
| Text.ReplaceFirstAtFirstOccurrence | app/profile/my-products.tsx:51 | a string holding the pattern: the replacement takes the place of the occurrence at the first position where the pattern occurs, and everything before and after it is kept |
| Inventory.EditPriceRoundTrip | app/profile/my-products.tsx:51 | `₹P/day` opens as `P` in the form and saves back as `₹P/day`, when `P` contains no unit suffix |
| Inventory.HourlyPriceSavedAsDaily | app/profile/my-products.tsx:51 | the seeded `₹20/hr` opens as `20` and is saved back as `₹20/day` |
| Inventory.HourlyHasNoDailySuffix | app/profile/my-products.tsx:51 | `'/day'` does not occur in `20/hr` |
| Inventory.HourlySuffixDropped | app/profile/my-products.tsx:51 | stripping `'/hr'` from `20/hr` leaves `20` |
| Inventory.Store.Seeded | utils/memoryStore.ts:2-21 | the inventory starts as the seed |
| Inventory.Store.Delete | app/profile/my-products.tsx:61-67 | the inventory becomes `WithoutId` of the old one, and blocked days stay in the calendar |
| Inventory.Store.SaveChanges | app/profile/my-products.tsx:73-83 | the inventory becomes `WithSaved` of the old one |
| Inventory.Store.SimulateScan | app/profile/my-products.tsx:85-97 | the inventory becomes `WithScan` of the old one; it reports whether the listing exists and whether a rental started (it was Available) |
| Inventory.Editor.constructor | app/profile/my-products.tsx:22-33 | the form starts empty (no id, title or price, no selection) with no blocked days |
| Inventory.Editor.HandleEdit | app/profile/my-products.tsx:48-54 | the form takes the listing's id, title, stripped price and blocked days |
| Inventory.Editor.ToggleDate | app/profile/my-products.tsx:100-103 | the form's blocked days become `ToggleDay` of the old ones; the other form fields and the QR selection are unchanged |
| Inventory.Editor.SaveChanges | app/profile/my-products.tsx:73-83 | the inventory becomes `WithSaved` with the form's values |
| Inventory.Editor.ShowQr | app/profile/my-products.tsx:43-46 | selects the listing's id and leaves the form (id, title, price, blocked days) unchanged |
| Inventory.Editor.SimulateScan | app/profile/my-products.tsx:85-97 | the inventory becomes `WithScan` for the selected id, with the same report as the store's scan |
| ProductContext.InitialInventory | context/ProductContext.tsx:4-23 | two initial products with distinct ids |
| ProductContext.AddProduct | context/ProductContext.tsx:35-37 | the new product is first, followed by the previous list |
| ProductContext.AddProductKeepsDistinct | context/ProductContext.tsx:35-37 | adding a product with a new id keeps the ids distinct |
| ProductContext.NewStatus | context/ProductContext.tsx:41 | the written status is Available iff the supplied status is Blocked, and is never Rented |
| ProductContext.Toggled | context/ProductContext.tsx:40-42 | the map body: a product with the id gets the status `NewStatus` decides and keeps its other fields; any other is returned as it is (`ToggleStatusAt`) |
| ProductContext.ToggleStatus | context/ProductContext.tsx:39-43 | the toggle keeps the length |
| ProductContext.ToggleStatusAt | context/ProductContext.tsx:39-43 | each position holds its product, toggled if it has the id |
| ProductContext.ToggleStatusEffect | context/ProductContext.tsx:39-43 | length, order and ids are kept; other ids are unchanged; matching products change only their status, to the one the supplied status decides |
| ProductContext.ToggleStatusTwice | context/ProductContext.tsx:41 | toggling twice, each time passing the current status, restores available or blocked products |
| AllProducts.StaticProducts | app/all-products.tsx:17-21 | the three static products |
| AllProducts.Feed | app/all-products.tsx:45 | the inventory followed by the static products (`FeedLayout`) |
| AllProducts.FeedLayout | app/all-products.tsx:45 | the inventory comes first in its order, then the static products; the length is the sum |
| AllProducts.Matches | app/all-products.tsx:54-58 | `matchCat && matchSearch`: the category is `'All'` or the entry's non-empty category equals it, and the non-empty title contains the query, case-insensitively |
| AllProducts.Filtered | app/all-products.tsx:53-59 | the filter of the feed by the category and search tests (`FilteredIsMatchingSubsequence`, `EverythingTitled`, `LongerQueryNarrows`) |
| AllProducts.FilteredIsMatchingSubsequence | app/all-products.tsx:53-59 | the result is an order-preserving subsequence of the feed; an entry is kept iff its category matches (or the selection is `'All'`) and its non-empty title contains the query, case-insensitively |
| AllProducts.EverythingTitled | app/all-products.tsx:55-57 | with `'All'` and an empty query exactly the titled entries are kept |
| AllProducts.LongerQueryNarrows | app/all-products.tsx:56 | the result for query `q + t` is a subsequence of that for `q` |
| Text.ContainsPrefixOfPattern | app/all-products.tsx:56 | a string containing `q + t` contains `q` |
| Text.LowerConcat | app/all-products.tsx:56 | lower-casing distributes over concatenation |
| AllProducts.ToggleLike | app/all-products.tsx:61-63 | a liked id is filtered out, any other appended (`ToggleLikeMembership`, `ToggleLikeDistinct`, `ToggleLikeTwice`) |
| AllProducts.ToggleLikeMembership | app/all-products.tsx:61-63 | the toggled id flips membership, and every other id keeps it |
| AllProducts.ToggleLikeDistinct | app/all-products.tsx:62 | liking never lists an id twice |
| AllProducts.ToggleLikeTwice | app/all-products.tsx:62 | toggling twice restores membership, and like-then-unlike restores the list |
| Seqs.FilterMembership | app/all-products.tsx:54-58 | an element is kept iff it is in the input and passes the test |
| Seqs.FilterIsSubsequence | app/all-products.tsx:54-58 | `filter` keeps order |
| MapScreen.RawItems | components/MapScreen.native.tsx:28-34 | the five nearby items |
| MapScreen.Matches | components/MapScreen.native.tsx:68-70 | `matchSearch && matchCat`: the lower-cased title contains the lower-cased query, and the category is `'All'` or the item's |
| MapScreen.Filtered | components/MapScreen.native.tsx:67-71 | `RAW_ITEMS.filter` by the title search and the category (`FilteredIsMatchingSubsequence`, `FashionIsEmpty`) |
| MapScreen.FilteredIsMatchingSubsequence | components/MapScreen.native.tsx:67-71 | the result is an order-preserving subsequence of the items, holding exactly those that pass the title search and the category test |
| MapScreen.FashionIsEmpty | components/MapScreen.native.tsx:67-71 | selecting Fashion yields an empty list |
| MapScreen.DistanceKey | components/MapScreen.native.tsx:75-76 | the distance comparator's key: the leading number, scaled by 1000 when the text holds `km` (`DistanceInMetres`, `DistanceInKilometres`) |
| MapScreen.DistanceInMetres | components/MapScreen.native.tsx:75-76 | `"<n>m"` has key `n` metres |
| MapScreen.DistanceInKilometres | components/MapScreen.native.tsx:75-76 | `"<n>.<f>km"` has key `n.f` × 1000 metres, on the same scale |
| MapScreen.RawMetreKeys | components/MapScreen.native.tsx:29-33 | the raw distances in metres are 200, 450, 800 and 300 metres |
| MapScreen.RawKilometreKey | components/MapScreen.native.tsx:31 | the raw distance `1.2km` is 1200 metres |
| MapScreen.PriceKey | components/MapScreen.native.tsx:81-82 | the price comparator's key: 0 for `'Free'`, else the number the digits spell (`RupeePerDayKey`, `RawPriceKeys`) |
| MapScreen.RupeePerDayKey | components/MapScreen.native.tsx:81-82 | `₹N/d` has price key `N` |
| MapScreen.RawPriceKeys | components/MapScreen.native.tsx:81-82 | `'Free'` is 0, and the raw prices are 50, 20 and 10 |
| MapScreen.RawItemsComparable | components/MapScreen.native.tsx:28-34 | every raw item has a numeric key under both sorts |
| MapScreen.InsertAt | components/MapScreen.native.tsx:74-84 | one insertion step: sorted prefix extended by one, permutation, suffix untouched |
| MapScreen.SortBy | components/MapScreen.native.tsx:74-84 | the array ends sorted ascending by the key, and is a permutation of itself |
| MapScreen.FilteredItems | components/MapScreen.native.tsx:66-88 | the result is a permutation of the filtered list; it is sorted by distance or by price for those options, and is the filtered list itself for `'Recommended'` or any other option |
| Text.LeadingDigits | components/MapScreen.native.tsx:75-76 | the integer part `parseFloat` reads: the longest run of leading digits |
| ProductDetails.DatabaseProducts | app/product-details.tsx:12-22 | the six catalogue entries |
| ProductDetails.DefaultItem | app/product-details.tsx:24-32 | `MOCK_ITEM_DEFAULT`, the demo camera item |
| ProductDetails.ShownItem | app/product-details.tsx:57-62 | a missing or unparsable item shows the demo item |
| ProductDetails.CategoryOf | app/product-details.tsx:66 | the item's category, `'Tech'` when missing |
| ProductDetails.IsSimilar | app/product-details.tsx:66 | an entry is similar when its category is the item's (`'Tech'` when missing) and its id is not the item's |
| ProductDetails.SimilarProducts | app/product-details.tsx:65-67 | the catalogue filtered to the item's category without the item itself (`SimilarProductsSpec`) |
| ProductDetails.SimilarProductsSpec | app/product-details.tsx:65-67 | recommendations are an order-preserving subsequence of the catalogue, holding exactly the entries in the category other than the item's own id |
| ProductDetails.Decrement | app/product-details.tsx:245 | the minus button's result is at least 1, and is `d - 1` above one |
| ProductDetails.Increment | app/product-details.tsx:249 | the plus button adds one |
| ProductDetails.AfterPresses | app/product-details.tsx:245-249 | the duration after a run of minus and plus presses from the initial 1 (`DurationAtLeastOne`) |
| ProductDetails.DurationAtLeastOne | app/product-details.tsx:70 | from the initial 1, any presses keep the duration at least 1 |
| ProductDetails.StepperInverse | app/product-details.tsx:245-249 | minus at 1 is a no-op, and plus then minus returns to the start |
| ProductDetails.TotalPrice | app/product-details.tsx:75-76 | for one day the total is the base price |
| ProductDetails.RentalData | app/product-details.tsx:86-91 | the rental keeps every field of the item except the price, and carries the duration |
| ProductDetails.RentalPriceRoundTrip | app/product-details.tsx:88 | the payment screen's parse of the rental price recovers `basePrice * duration` |
| ProductDetails.RentThenPay | app/product-details.tsx:86-91 | payment charges the rental total plus both fees, for the same lender and title |
| Text.DecimalRoundTrip | app/product-details.tsx:88 | reading back the decimal rendering of a number gives the number |
| Text.RupeeAmountRoundTrip | app/product-details.tsx:88 | the digit strip of `₹N` is `N` |

## Left out

- Rendering, styles, alerts, modals, navigation and theming are UI only, so they are not modelled.
- The clock: message ids, times (`Date.now`, `toLocaleTimeString`) and the transaction id (`Math.random`) are parameters, or left out.
- `setTimeout` delays: the timer bodies of the scan simulation and the payment spinner run as immediate steps. The payment-processing flags are not modelled.
- Parsing and encoding of navigation parameters: JSON parse/stringify and `encodeURIComponent`. A parsed item is a given record, and a decoded parameter equals the encoded one.
- Geolocation, map camera calls and QR scanning are device I/O.
- The date arithmetic of the details screen's slots and date range (`GENERATE_SLOTS`, `dateRange`) is not modelled. `ProductDetails.RentalData` does not carry the date range.
- Posting a new listing (`GlobalInventory.unshift` in app/(tabs)/post.tsx) lies outside the modelled screens. The inventory changes only through the operations above.
- Aliasing between `GlobalInventory` and the screens: the screens' list copies (`setItems([...GlobalInventory])`) hold the same record objects. The inventory is a list of values, so the model does not capture that an edit shows up in a stale copy.
- Re-render staleness of screen-local copies (React focus effects) is not modelled.
- Inventory.Editor.SaveChanges: the model uses the edited listing's id, which is "" before any edit. The app dereferences `editingItem.id` and would throw before any edit.
- Inventory.Editor.SimulateScan: the same holds for the selected listing: before any `ShowQr` the model scans with id "", which changes nothing, where the app would throw on `selectedItem.id` (app/profile/my-products.tsx:88). The screen does not offer a scan before a QR code is shown.
- Text.Lower: lower-cases ASCII letters only, not full Unicode `toLowerCase`.
- MapScreen.DistanceKey: `parseFloat` is modelled as a fixed-point parse to one decimal. This is exact for the `"<n>m"` and `"<n.d>km"` shapes of the nearby items, but is not IEEE floating point.
- MapScreen.FilteredItems: it requires that the active sort's keys are numbers (a price other than `'Free'` has a digit, a distance starts with one), because the app's comparator returns NaN otherwise. The sort's stability for equal keys is not stated: it is proved sorted and a permutation only.
- ProductContext.ToggleStatus: the status is a three-valued type, so a `currentStatus` string outside Available/Rented/Blocked is not modelled.
- Payment.BasePrice: prices and totals are unbounded naturals here, but in the app they are IEEE doubles. `parseInt` of a digit string is exact only below 2^53, so the parse is modelled exactly only for amounts below 2^53.
- ProductDetails.RentalPriceRoundTrip: `basePrice * duration` is a double, exact only below 2^53. A template literal renders a number of 1e21 or more in exponent form (`₹1e+21`, whose digits read back as 121). So this round trip holds in the app only for totals below 2^53.
- ProductDetails.RentThenPay: for the same reason, the payment total equals `basePrice * duration` plus the fees in the app only for totals below 2^53.
- Text.DecimalRoundTrip: `${n}` is modelled as plain decimal digits. JavaScript switches to exponent form from 1e21, and doubles are exact only below 2^53, so the read-back holds in the app only below 2^53.
- Text.RupeeAmountRoundTrip: the digit strip of `₹${n}` recovers `n` in the app only below 2^53, for the same reason.
