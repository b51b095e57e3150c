# Restaurant point-of-sale core, modelled in Dafny

This project models the deterministic logic of a restaurant point-of-sale web application. The logic sits in five places:

- **Input validation.** The menu-item, order-line, order and phone-number schemas. Each is modelled as rule-by-rule predicates plus a normalising parse that reports the first broken rule.
- **Billing.** The screen recomputes tax (12% GST), tip and total from the subtotal, the discount and the tip percent. It also guards the payment by selection and by a processing flag, and checks the phone number before a WhatsApp receipt is sent.
- **Upsell suggestions.** On the server, the edge function builds the prompt context and cuts the JSON array out of the model's text. It falls back to a chef's pick when parsing fails, resolves names case-insensitively against the catalogue, and maps gateway failures to HTTP statuses. On the client, the hook builds the request body, passes the function's list through, and replaces it with a two-item fallback on any error.
- **Menu store.** The catalogue list is changed by add (validate, then append), update (replace by id), delete (filter by id) and toggle (negate availability). The menu screen filters it by search term and category, and routes the form and the delete dialog to the store.
- **Order board.** The dashboard cycles the status of its active orders and removes completed ones.

## Modules

- `Wrappers`: `Option` and `Result`.
- `Text`: the helpers for JavaScript strings that the model needs:
  - ASCII lower-casing;
  - `trim` over JavaScript's white-space set;
  - substring search (`includes`);
  - `join`.
- `Seqs`: `filter`, and a `map` that rewrites only matching entries, and a sum over a list. The order and multiplicity lemmas for `filter` are shared by the menu store's delete, the menu screen's search filter, the dashboard's completion and the phone-number cleaning.
- `Validation`: `src/lib/validation.ts`.
- `Billing`: `src/components/BillingInterface.tsx`. `BillingScreen` is a class holding the screen's state.
- `SuggestionServer`: `supabase/functions/ai-menu-suggestions/index.ts`.
- `SuggestionClient`: `src/hooks/useAISuggestions.tsx`. `SuggestionPanel` is a class holding the hook's state.
- `MenuStore`: `src/hooks/useMenuItems.tsx`. `MenuItemStore` holds the list and the loading flag. Each operation is a pure step function on the list, and the methods are proved against those functions.
- `MenuManagement`: `src/components/MenuManagement.tsx`. `MenuScreen` holds the dialog and form state and a reference to the store.
- `Dashboard`: `src/components/RestaurantDashboard.tsx`. `OrderBoard` holds the active orders.

## How the model follows the source

The model follows the code, including these behaviours:

- **Tip percent.** It is used exactly as entered, with no clamping. A negative percent gives a negative tip and lowers the total (`Billing.NegativeTipLowersTotal`).
- **Unmatched names.** A suggested name that matches no catalogue item is resolved to the first catalogue item. It is not dropped. Entries are removed only when the catalogue is empty.
- **Zero matches.** There is no fallback when no name matches. The server's list is then the first catalogue item repeated, and the client passes it through.
- **Fallback on the client.** It is installed only on an invocation error or on `null` data. A successful answer without `suggestions` yields an empty list.
- **Validation errors.** The reported error is that of the first field, in schema order, that breaks a rule, and within the field that of its first failing check.

Foreign behaviour is passed in as function parameters:

- URL validity and UUID validity;
- `JSON.parse`, as a classification of the extracted text into malformed, a non-array, or an array of suggestion entries;
- number-to-text conversion of prices;
- the AI gateway's reply;
- the database's answer to an insert, update or delete;
- the answer to the function invocation.

Asynchronous handlers are single methods. A ghost out-parameter records the loading or processing flag while the external call is awaited. The postconditions state that the flag was set during the call and is cleared on every path.

## Model

| member | source | states |
|---|---|---|
| Validation.ParseMenuItem | src/lib/validation.ts:3-12 | accepted iff every field rule holds (trimmed name 1..100, trimmed description at most 500, price in (0, 100000], trimmed category 1..50, integral preparation time 1..180, image URL valid or empty); the accepted item holds the trimmed strings and the defaults false / true / "" |
| Validation.ParseName | src/lib/validation.ts:4 | accepted iff the trimmed name has 1 to 100 characters; the value is the trimmed name |
| Validation.ParseDescription | src/lib/validation.ts:5 | accepted iff an absent description or a trimmed one of at most 500 characters; the value is the trimmed text or "" |
| Validation.ParsePrice | src/lib/validation.ts:6 | accepted iff 0 < price ≤ 100000; the value is the price |
| Validation.ParseCategory | src/lib/validation.ts:7 | accepted iff the trimmed category has 1 to 50 characters; the value is the trimmed category |
| Validation.ParsePreparationTime | src/lib/validation.ts:8 | accepted iff the time is an integer from 1 to 180; the value is that integer |
| Validation.ParseImageUrl | src/lib/validation.ts:11 | accepted iff absent, empty or a valid URL; the value is the URL or "" |
| Validation.FirstErrorWins | src/lib/validation.ts:3-12 | the message reported is that of the first field in schema order that breaks a rule: empty or long name, then non-positive or excessive price, then the preparation-time bounds |
| Validation.ParseIsNormalising | src/lib/validation.ts:3-12 | an item the schema produced, submitted again, is accepted and comes back unchanged |
| Text.TrimShape | src/lib/validation.ts:4 | a trimmed string neither starts nor ends with white space and is a piece of the input with only white space cut off around it |
| Text.TrimIdempotent | src/lib/validation.ts:4 | trimming twice is trimming once |
| Validation.ParsePhone | src/lib/validation.ts:14 | accepted iff an optional `+` is followed by 2 to 15 digits the first of which is 1 to 9; the accepted value is the input |
| Validation.PhoneAutomatonMatchesPattern | src/lib/validation.ts:14 | a left-to-right automaton for the regular expression accepts exactly the numbers the declarative pattern accepts |
| Validation.PhoneExamples | src/lib/validation.ts:14 | `+14155552671` is accepted, `0012345` and `abc123` are refused, and 2 and 16 digits are the length limits |
| Validation.ParseOrderLines | src/lib/validation.ts:16-19 | the lines are accepted iff every line has a valid id and an integral quantity 1..100; the result keeps their order and length |
| Validation.ParseOrderLine | src/lib/validation.ts:16-19 | accepted iff the id is a valid UUID and the quantity an integer from 1 to 100; the line keeps the id and the quantity; an invalid id reports the id message first |
| Validation.ParseStatus | src/lib/validation.ts:25 | accepted iff absent or one of the four names; absent and `pending` give pending, and each other name gives its own state |
| Validation.ParseOrder | src/lib/validation.ts:21-26 | accepted iff the table id (when present) is valid, there is at least one item, every line is accepted, the total is positive and the status is one of the four names; the accepted order holds the table id, the parsed lines, the total and the parsed status, which defaults to pending; no items gives the at-least-one-item error |
| Billing.Recompute | src/components/BillingInterface.tsx:67-79 | the result is consistent (tax = 12% of subtotal, tip = subtotal × percent / 100, total = subtotal + tax − discount + tip) and differs from the input only in tax, tip and total |
| Billing.RecomputeIdempotent | src/components/BillingInterface.tsx:67-83 | recomputing twice equals recomputing once |
| Billing.RecomputeReadsOnlyInputs | src/components/BillingInterface.tsx:68-71 | tax depends on the subtotal alone; tip and total depend only on subtotal, discount and the percent |
| Billing.ConsistentIsFixedPoint | src/components/BillingInterface.tsx:67-79 | a bill whose amounts already agree is left unchanged |
| Billing.NegativeTipLowersTotal | src/components/BillingInterface.tsx:70-71 | the percent is not clamped: a negative percent gives a negative tip and a total below the taxed, discounted subtotal |
| Billing.SeededBillIsConsistent | src/components/BillingInterface.tsx:47-60 | the seeded subtotal 1120 is the sum of price × quantity over the three lines, and its tax 134.4 and total 1254.4 are what recomputation with no tip gives |
| Billing.SeededBillWithTenPercentTip | src/components/BillingInterface.tsx:47-71 | a ten-percent tip on the seeded bill is 112 and the total 1366.4 |
| Billing.CleanPhone | src/components/BillingInterface.tsx:153 | the result is all digits, keeps the input's digits in their order, and holds each digit exactly as often as the input does |
| Billing.CleanPhoneKeepsDigits | src/components/BillingInterface.tsx:153 | removing non-digits leaves a subsequence of the input that keeps every digit with its multiplicity |
| Billing.CleanPhoneOfValid | src/components/BillingInterface.tsx:139-153 | for an accepted phone number, removing non-digits only drops the leading `+` |
| Billing.WhatsAppSend | src/components/BillingInterface.tsx:128-164 | phone required iff the field is empty; invalid iff non-empty and refused by the phone schema; otherwise the receipt goes to the 2 to 15 digits of the number |
| Billing.BillingScreen.constructor | src/components/BillingInterface.tsx:47-83 | starts from the seeded bill with no payment method, no phone, a zero tip and not processing, with the amounts consistent |
| Billing.BillingScreen.CalculateTotal | src/components/BillingInterface.tsx:67-79 | the bill becomes its recomputation under the current tip percent, and nothing else changes |
| Billing.BillingScreen.SetTipPercent | src/components/BillingInterface.tsx:272-284 | the percent is stored as entered and the bill is recomputed with it |
| Billing.BillingScreen.SelectPayment | src/components/BillingInterface.tsx:180 | the chosen method is selected |
| Billing.BillingScreen.SetCustomerPhone | src/components/BillingInterface.tsx:341 | the phone field holds the entered text |
| Billing.BillingScreen.HandlePayment | src/components/BillingInterface.tsx:85-114 | with no method selected nothing happens; otherwise the processing flag is set during the charge and cleared on both paths; success charges via the method the bill total, which is subtotal + 12% tax − discount + tip at the current percent, and schedules a receipt iff a phone was entered |
| Billing.BillingScreen.HandleWhatsAppSend | src/components/BillingInterface.tsx:128-164 | the outcome is that of the phone gate on the current field, and a sent receipt implies a valid number |
| SuggestionServer.OrderContextListsItems | supabase/functions/ai-menu-suggestions/index.ts:23-25 | the context of a non-empty order names every item of it |
| SuggestionServer.OrderContextWhenEmpty | supabase/functions/ai-menu-suggestions/index.ts:23-25 | an absent or empty order gives the fixed no-items text |
| SuggestionServer.OrderContext | supabase/functions/ai-menu-suggestions/index.ts:23-25 | the fixed no-items text exactly when the order is absent or empty; otherwise the prefix followed by the names joined with ", " |
| SuggestionServer.MenuEntries | supabase/functions/ai-menu-suggestions/index.ts:27-29 | one "name (₹price, category)" entry per catalogue item, in catalogue order |
| SuggestionServer.MenuContext | supabase/functions/ai-menu-suggestions/index.ts:27-29 | the menu prefix followed by one entry per catalogue item, in catalogue order, joined with ", " |
| SuggestionServer.MenuContextListsItems | supabase/functions/ai-menu-suggestions/index.ts:27-29 | the menu context names every catalogue item and its category |
| SuggestionServer.IndexOf | supabase/functions/ai-menu-suggestions/index.ts:90 | the first position of a character, or none when it does not occur |
| SuggestionServer.LastIndexOf | supabase/functions/ai-menu-suggestions/index.ts:90 | the last position of a character, or none when it does not occur |
| SuggestionServer.JsonSpan | supabase/functions/ai-menu-suggestions/index.ts:90-91 | with a `[` before some `]` the text parsed runs from the first `[` to the last `]`; otherwise it is the whole content |
| SuggestionServer.ChefPick | supabase/functions/ai-menu-suggestions/index.ts:96-98 | the fallback pick names the first catalogue item, or `Popular Item` when there is none or its name is empty, with the chef's reason and confidence 85 |
| SuggestionServer.Suggest | supabase/functions/ai-menu-suggestions/index.ts:86-112 | a parsed non-array fails, a parsed array is enriched as it stands, and every suggestion produced is a catalogue item |
| SuggestionServer.ParseFailureFallback | supabase/functions/ai-menu-suggestions/index.ts:93-112 | when parsing fails the result is exactly one chef's pick with the fixed reason and confidence 85, naming the first catalogue item when it has a name; an empty catalogue gives no suggestions |
| SuggestionServer.Resolve | supabase/functions/ai-menu-suggestions/index.ts:103-105 | finds the first catalogue item whose lower-cased name equals the lower-cased pick name, or none when no item does |
| SuggestionServer.ResolvedItem | supabase/functions/ai-menu-suggestions/index.ts:103-108 | a pick resolves to a catalogue item: when some item has the same case-insensitive name, the first such item; when none does, the first catalogue item |
| SuggestionServer.MatchingIgnoresCase | supabase/functions/ai-menu-suggestions/index.ts:103-108 | `naan` and `LASSI` resolve to `Naan` and `Lassi`, and an unknown name resolves to the first item |
| SuggestionServer.EnrichOne | supabase/functions/ai-menu-suggestions/index.ts:102-111 | fails iff the pick is unreadable; yields nothing iff the catalogue is empty; otherwise the resolved item with the pick's reason and confidence |
| SuggestionServer.Enrich | supabase/functions/ai-menu-suggestions/index.ts:102-112 | fails iff some pick is null or lacks a name that is needed; an empty catalogue gives an empty list; otherwise order and length are kept and reason and confidence are copied unchanged |
| SuggestionServer.EnrichedItemsAreFromCatalog | supabase/functions/ai-menu-suggestions/index.ts:102-112 | every enriched item is a member of the catalogue |
| SuggestionServer.StatusClassification | supabase/functions/ai-menu-suggestions/index.ts:17-127 | the status is 200, 402, 429 or 500; 429 and 402 arise exactly from the same gateway statuses, with the rate-limit and credits messages; a missing key, another failure status or missing content give 500 with their message; 200 iff the body holds suggestions |
| SuggestionServer.HandleRequest | supabase/functions/ai-menu-suggestions/index.ts:9-128 | the status is 200 exactly when the key is configured, the gateway answers OK with content, and the suggestions can be built from it; the 200 body is those suggestions |
| SuggestionServer.ResponseItemsAreFromCatalog | supabase/functions/ai-menu-suggestions/index.ts:86-119 | every suggestion in a successful response refers to an item of the request's catalogue |
| SuggestionClient.RequestBody | src/hooks/useAISuggestions.tsx:23-31 | one entry per order item carrying its name and category, and one per menu item carrying its id, name, price and category, both in the original order |
| SuggestionClient.RequestBodyMirrorsMenu | src/hooks/useAISuggestions.tsx:25-30 | each catalogue entry of the body is the id, name, price and category of a menu item |
| SuggestionClient.OrderContextNamesOrder | src/hooks/useAISuggestions.tsx:24 | the order context the function builds from the body names every item of the client's order |
| SuggestionClient.FallbackSuggestions | src/hooks/useAISuggestions.tsx:55-61 | the first min(2, n) menu items in order, each with the fixed reason and confidence 80; 1 or 2 entries for a non-empty menu |
| SuggestionClient.ErrorNotice | src/hooks/useAISuggestions.tsx:35-47 | the rate-limit notice iff the message contains `Rate limit`; otherwise the credits notice iff it contains `credits` |
| SuggestionClient.Outcome | src/hooks/useAISuggestions.tsx:34-61 | an error or null data gives the fallback; otherwise the function's suggestions pass through unchanged, or an empty list when there are none |
| SuggestionClient.ErrorsEndInFallback | src/hooks/useAISuggestions.tsx:34-61 | every error ends in the fallback of one or two menu items, whatever notice it selects |
| SuggestionClient.SuggestionPanel.constructor | src/hooks/useAISuggestions.tsx:13-14 | no suggestions and not loading |
| SuggestionClient.SuggestionPanel.FetchSuggestions | src/hooks/useAISuggestions.tsx:17-65 | an empty menu changes nothing; otherwise loading is set during the call and cleared afterwards, the suggestions become the outcome of the call, and an error's message selects the rate-limit or credits notice |
| SuggestionClient.PanelItemsComeFromMenu | src/hooks/useAISuggestions.tsx:17-65 | after a fetch on a non-empty menu every suggestion refers to a menu item, both on the fallback path and on the function's answer |
| MenuStore.AvailabilityPatch | src/hooks/useMenuItems.tsx:143-145 | the toggle's update sets availability to the negated flag and no other field |
| MenuStore.ReplaceById | src/hooks/useMenuItems.tsx:100 | every item with the id becomes the row, the others stay, and the length is unchanged |
| MenuStore.RemoveById | src/hooks/useMenuItems.tsx:126 | exactly the items with another id remain |
| MenuStore.FetchedItems | src/hooks/useMenuItems.tsx:32-33 | the returned rows, `[]` for null data, and the old list on an error |
| MenuStore.AddStep | src/hooks/useMenuItems.tsx:50-86 | success iff the item validates and the insert returns a row; then the row is appended after the existing items; otherwise the list is unchanged; a validation failure reports the first error's message, and a failed insert of a valid item gives the generic failure |
| MenuStore.InvalidItemIsNotInserted | src/hooks/useMenuItems.tsx:53-61 | an invalid item never reaches the database: the outcome does not depend on the insert |
| MenuStore.UpdateStep | src/hooks/useMenuItems.tsx:88-115 | no validation; on success every item with the id becomes the returned row and the others and the length are unchanged; on failure the list is unchanged |
| MenuStore.UpdateOfUnknownId | src/hooks/useMenuItems.tsx:100 | updating an id the list does not hold leaves the list unchanged |
| MenuStore.DeleteStep | src/hooks/useMenuItems.tsx:117-141 | on success exactly the items with another id remain; on failure the list is unchanged |
| MenuStore.DeleteKeepsTheRest | src/hooks/useMenuItems.tsx:126 | a delete keeps the remaining items in order and with their multiplicity |
| MenuStore.MenuItemStore.constructor | src/hooks/useMenuItems.tsx:20-21 | an empty list, loading |
| MenuStore.MenuItemStore.Fetch | src/hooks/useMenuItems.tsx:24-44 | loading during the query and cleared afterwards; the list becomes the returned rows, `[]` for null, unchanged on an error |
| MenuStore.MenuItemStore.Add | src/hooks/useMenuItems.tsx:50-86 | the list and the reply are those of the add step |
| MenuStore.MenuItemStore.Update | src/hooks/useMenuItems.tsx:88-115 | the list and the reply are those of the update step |
| MenuStore.MenuItemStore.Delete | src/hooks/useMenuItems.tsx:117-141 | the list and the reply are those of the delete step for the database's answer |
| MenuStore.MenuItemStore.ToggleAvailability | src/hooks/useMenuItems.tsx:143-145 | an update with the availability patch and nothing else |
| MenuManagement.FilteredItems | src/components/MenuManagement.tsx:98-102 | an item is shown iff its lower-cased name contains the lower-cased search term and the category is `all` or the item's own |
| MenuManagement.MatchesIgnoresCase | src/components/MenuManagement.tsx:99-101 | the item filter ignores ASCII case: lower-casing the name and the term first gives the same answer |
| MenuManagement.MatchExamples | src/components/MenuManagement.tsx:99-101 | `CHICK` finds `Butter Chicken` under `all`, `chick` finds it under its own category and not under another |
| MenuManagement.FilterPreservesOrder | src/components/MenuManagement.tsx:98-102 | the filtered list is an order-preserving subsequence and keeps every matching item with its multiplicity |
| MenuManagement.NoFilterShowsAll | src/components/MenuManagement.tsx:99-100 | an empty search with category `all` shows the whole list |
| MenuManagement.MenuScreen.constructor | src/components/MenuManagement.tsx:31-37 | empty search, category `all`, form closed in add mode, nothing being edited or deleted |
| MenuManagement.MenuScreen.SetSearchTerm | src/components/MenuManagement.tsx:134 | the search term is the entered text |
| MenuManagement.MenuScreen.SelectCategory | src/components/MenuManagement.tsx:144 | the selected category is the one pressed |
| MenuManagement.MenuScreen.HandleAddNewItem | src/components/MenuManagement.tsx:50-54 | add mode, nothing being edited, form open |
| MenuManagement.MenuScreen.HandleEditItem | src/components/MenuManagement.tsx:56-60 | edit mode on the item, form open |
| MenuManagement.MenuScreen.HandleDeleteClick | src/components/MenuManagement.tsx:62-65 | the item is pending deletion and the dialog is open |
| MenuManagement.MenuScreen.HandleDeleteConfirm | src/components/MenuManagement.tsx:67-73 | deletes only when an item is pending, then clears it and closes the dialog; with none pending nothing changes |
| MenuManagement.MenuScreen.HandleFormSubmit | src/components/MenuManagement.tsx:75-82 | add mode adds the form; edit mode with an item updates that item's id with the form; edit mode without one returns failure and changes nothing |
| MenuManagement.MenuScreen.HandleToggleAvailability | src/components/MenuManagement.tsx:92-94 | the store's toggle for the id |
| Dashboard.StatusCycle | src/components/RestaurantDashboard.tsx:81-82 | preparing, ready and completed form a cycle that pending only enters at preparing; the next status is completed iff the current one is ready |
| Dashboard.NextStatus | src/components/RestaurantDashboard.tsx:81-82 | the next status is ready iff the status is preparing, completed iff it is ready, and preparing iff it is pending or completed |
| Dashboard.AdvanceById | src/components/RestaurantDashboard.tsx:78-94 | only the status of the orders with the id moves to the next status; every other field, every other order and the length are unchanged |
| Dashboard.AdvanceOfUnknownId | src/components/RestaurantDashboard.tsx:79-93 | an unknown id leaves the list unchanged |
| Dashboard.RemoveById | src/components/RestaurantDashboard.tsx:96-97 | exactly the orders with another id remain |
| Dashboard.RemoveKeepsOrder | src/components/RestaurantDashboard.tsx:97 | completing keeps the remaining orders in order and with their multiplicity |
| Dashboard.RemovePreservesUnique | src/components/RestaurantDashboard.tsx:96-97 | completing keeps the order ids distinct |
| Dashboard.ButtonNeverCompletes | src/components/RestaurantDashboard.tsx:157-161 | with distinct ids, the card's button never produces a completed order that was not already in the list: a ready order is removed, not advanced |
| Dashboard.PressResult | src/components/RestaurantDashboard.tsx:160 | for a ready order exactly the orders with another id remain; otherwise the length and every id are kept, the orders with the pressed id move to their next status and every other order is unchanged |
| Dashboard.SeededTotals | src/components/RestaurantDashboard.tsx:45-68 | each seeded order's total (880 and 340) is the sum of price × quantity of its lines, and the seeded ids are distinct |
| Dashboard.OrderBoard.constructor | src/components/RestaurantDashboard.tsx:45-68 | the board starts with the seeded orders |
| Dashboard.OrderBoard.HandleOrderStatusUpdate | src/components/RestaurantDashboard.tsx:78-94 | the list becomes its advance at the id, and ids stay distinct |
| Dashboard.OrderBoard.HandleCompleteOrder | src/components/RestaurantDashboard.tsx:96-103 | the list loses the orders with the id, and ids stay distinct |
| Dashboard.OrderBoard.PressOrderButton | src/components/RestaurantDashboard.tsx:160 | a ready order is completed, any other is advanced |

## Left out

- Text.ToLower: lower-cases ASCII letters only; JavaScript's `toLowerCase` also folds other scripts.
- UTF-16 lengths: string lengths are counted in characters, whereas zod's `min`/`max` count UTF-16 code units.
- NaN, infinities and IEEE rounding are not modelled: money and times are `real` numbers, and `toFixed(2)` formatting is left out.
- Zod's URL and UUID checks, `JSON.parse` and the number-to-text conversion in the menu context are parameters, not definitions.
- Billing.BillingScreen.HandlePayment: requires the screen's amounts to agree with its tip percent, which the constructor and every method that changes the bill or the percent establish.
- Dashboard.OrderBoard.HandleOrderStatusUpdate, Dashboard.OrderBoard.HandleCompleteOrder and Dashboard.OrderBoard.PressOrderButton: these require distinct order ids, which the seeded list has and nothing on the board breaks; the source's own list has no such guard.
- Each order's timestamp, the dashboard statistics and view switching are not part of this model.
- The prompt text beyond its two context strings, the model name, the temperature, CORS headers, the `OPTIONS` preflight and console logging are left out.
- The gateway's message content is assumed to be a string (`ProviderReply.content`). A truthy non-string content would fail inside the parse step and end in the chef's pick, which is not modelled.
- A `TypeError` raised while enriching the parsed array (a non-array, a `null` pick, a missing name) makes the edge function answer 500 with the runtime's message. The model uses one fixed message in its place.
- A `reason` or `confidence` of another JSON kind is not modelled. A pick is `null` or an entry with an optional string name, an optional reason and an optional number confidence. An `item_name` that is missing or not a string counts as absent, which fails exactly when the catalogue is non-empty, because only then is its lower-casing attempted.
- The request body is assumed to carry `menuItems` as an array. A body that is not JSON is not modelled.
- How the client library turns a non-2xx response of the function into an error message is not modelled. The invocation's answer is a parameter.
- Toasts, dialogs' visuals, `window.print`, `window.open`, `encodeURIComponent` and the WhatsApp message wording are not modelled.
- Timers and concurrency are not modelled: the two-second payment delay, the delayed receipt, effect scheduling and overlapping fetches. Each handler runs to completion as one method.
- Database queries are parameters that answer with a row, the rows, or an error. Ordering by name is up to that answer.
