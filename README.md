# Penny Carb core logic in Dafny

This project models the decision logic of the Penny Carb food-ordering app (customers, cooks, delivery riders and admins in a panchayat/ward setting) and proves properties of it. Each module models one source file:

- `SlotWindow`: whether a cloud-kitchen slot is open for ordering, how long is left until the cutoff, and the status label.
- `DivisionItems`: how the rows of one division become one item per dish and cook, sorted by dish name and then kitchen name.
- `DeliveryNotifications`: covers two things.
  - A rider's list of offered orders (`PendingRegistry`). An order is added once, counts down from 120 seconds and is withdrawn once someone takes it.
  - The admin's escalation list (`AdminAlerts`) of ready orders that have waited more than three minutes.
- `UnacceptedOrdersAlert`: the admin's dialog for those orders. It covers the waiting-time text, the panchayat names, the available-staff counts and "Assign Manually".
- `DeliveryStaffWallet`: a rider's wallet.
  - Payout and settlement with their balance checks.
  - The summary totals and the search.
  - The rules that enable the buttons.
- `ServicesStep`: the optional services of an indoor event, their prices, toggling, and the total.
- `LocationContext`: the customer's selected panchayat and ward, and their copies in browser storage.
- `IndoorEventsOrders`: the admin page for event bookings.
  - Cook selection and the search filter.
  - Grouping assigned cooks per booking and the assign-and-prepare mutation.
  - The status buttons.
- `AdminCooks`: cook registration.
  - Form validation and the staff pre-fill.
  - The order-type checkboxes and the synthesized sign-up e-mail.
  - Status badge colours.
- `Common`: shared helpers, such as options, `||` defaults, decimal text and parsing, ASCII lower-casing, substring search and association lists.

Where the source changes state in place (React state, browser storage, database tables), the model uses a class whose fields are that state. Each callback or effect is a method with a `modifies` clause, and its `ensures` states the whole new state. Where the source only computes, the model uses functions and lemmas. Clock readings, query results and the success or failure of database writes are parameters.

## Model

| member | source | states |
|---|---|---|
| SlotWindow.CheckIfOrderingOpen | src/hooks/useCustomerCloudKitchen.ts:42-117 | closed ⇔ no time remaining ⇔ label "closed"; an ended normal or overnight slot is closed; open ⇒ now is before the slot start; when open, remaining time is 1..1439 minutes, minutes < 60, it ends at the cutoff's time of day, and "closing soon" ⇔ at most 60 minutes; open ⇔ not ended, before start and before the cutoff (cutoffs up to two days back); further back, never open |
| SlotWindow.CutoffWindow | src/hooks/useCustomerCloudKitchen.ts:62-101 | when the cutoff falls at most two days before the start, the test passes ⇔ now is before the start and before (start − lead) modulo a day; an earlier cutoff never passes; when it passes, the minutes left are between 1 and 1439 and end at the cutoff's minute of the day |
| SlotWindow.WrappedTestIsReachablePart | src/hooks/useCustomerCloudKitchen.ts:82-88 | in the wrapped branch the test equals `now < start && now < wrappedCutoff`: its second disjunct is unreachable |
| SlotWindow.ClosedWhileServing | src/hooks/useCustomerCloudKitchen.ts:70-91 | a normal slot is closed throughout [start, end) although it has not ended |
| SlotWindow.BreakfastAtElevenPm | src/hooks/useCustomerCloudKitchen.ts:62-95 | slot 06:00-10:00 with an 8 h cutoff: the cutoff wraps to 1320 (22:00), and at 23:00 the result is closed |
| SlotWindow.BreakfastAtFiveAm | src/hooks/useCustomerCloudKitchen.ts:82-116 | the same slot at 05:00 is reported open with 17 h 00 m left and label "open" |
| SlotWindow.ParseClock | src/hooks/useCustomerCloudKitchen.ts:55-59 | a parsed time is a non-negative minute count |
| SlotWindow.Pad2 | src/hooks/useCustomerCloudKitchen.ts:55-59 | a two-digit field is exactly two decimal digits |
| SlotWindow.DigitsValueOfPad2 | src/hooks/useCustomerCloudKitchen.ts:55-59 | reading a two-digit field gives back its number |
| SlotWindow.ParseFormatClock | src/hooks/useCustomerCloudKitchen.ts:55-59 | parsing "HH:MM" gives h*60+m, a minute of the day |
| SlotWindow.SlotWindowAt | src/hooks/useCustomerCloudKitchen.ts:42-59 | a result exists ⇔ both times parse, and it is the window of the parsed minutes |
| SlotWindow.CutoffMinutes | src/hooks/useCustomerCloudKitchen.ts:61-66 | the cutoff is the lead time before the start, moved forward one day when negative |
| SlotWindow.HasSlotEndedToday | src/hooks/useCustomerCloudKitchen.ts:69-71 | a normal slot has ended once its end is reached; an overnight slot between its end and the next start |
| SlotWindow.IsBeforeCutoff | src/hooks/useCustomerCloudKitchen.ts:80-91 | the source's test, wrapped branch included; `WrappedTestIsReachablePart` shows which part of it can hold |
| SlotWindow.Remaining | src/hooks/useCustomerCloudKitchen.ts:97-101 | the minutes until the cutoff, moved forward one day when the cutoff is earlier; `CutoffWindow` bounds it |
| DivisionItems.ToItem | src/hooks/useCustomerCloudKitchen.ts:191-208 | the item copies the row's fields, its key is `<food id>_<cook id>`, set size and minimum sets default to 1 (never 0), and images default to empty |
| DivisionItems.ToItems | src/hooks/useCustomerCloudKitchen.ts:191 | one item per row, in row order |
| DivisionItems.LexLeqTotal | src/hooks/useCustomerCloudKitchen.ts:212-214 | the string order compares any two strings |
| DivisionItems.LexLeqTransitive | src/hooks/useCustomerCloudKitchen.ts:212-214 | the string order is transitive |
| DivisionItems.LexLeqAntisymmetric | src/hooks/useCustomerCloudKitchen.ts:212-214 | strings ordered both ways are equal |
| DivisionItems.ItemLeqTotal | src/hooks/useCustomerCloudKitchen.ts:211-215 | the comparator (dish name, then kitchen name) is total |
| DivisionItems.ItemLeqTransitive | src/hooks/useCustomerCloudKitchen.ts:211-215 | the comparator is transitive |
| DivisionItems.InsertAtFront | src/hooks/useCustomerCloudKitchen.ts:211-215 | an item not after the head goes in front and stays sorted |
| DivisionItems.InsertBehindHead | src/hooks/useCustomerCloudKitchen.ts:211-215 | an item after the head goes behind it and stays sorted, with the same multiset |
| DivisionItems.Insert | src/hooks/useCustomerCloudKitchen.ts:211-215 | inserting into a sorted list gives a sorted list with that item added |
| DivisionItems.Sort | src/hooks/useCustomerCloudKitchen.ts:211-215 | the result is sorted by dish name then kitchen name and is a permutation of the input |
| DivisionItems.DivisionItems | src/hooks/useCustomerCloudKitchen.ts:150-218 | no division (null or empty) gives no items; otherwise the result is the sorted items of the rows |
| DivisionItems.DivisionItemsFromRows | src/hooks/useCustomerCloudKitchen.ts:191-215 | one item per row, and an item is in the result ⇔ it is the item of some row |
| DeliveryNotifications.DropKey | src/hooks/useDeliveryNotifications.ts:92-94 | the filter keeps exactly the entries whose id differs |
| DeliveryNotifications.DropKeyConcat | src/hooks/useDeliveryNotifications.ts:92-94 | the filter works entry by entry, so order is kept |
| DeliveryNotifications.DropAbsentKey | src/hooks/useDeliveryNotifications.ts:92-94 | removing an absent id changes nothing |
| DeliveryNotifications.DropPresentKey | src/hooks/useDeliveryNotifications.ts:92-94 | with unique ids, removing entry i gives the list without exactly that entry |
| DeliveryNotifications.DropKeyKeepsUnique | src/hooks/useDeliveryNotifications.ts:92-94 | removal keeps ids unique, and the id is gone |
| DeliveryNotifications.AddOnce | src/hooks/useDeliveryNotifications.ts:82-86 | a present id leaves the list unchanged; otherwise the entry is appended; unique ids stay unique; the id is present afterwards |
| DeliveryNotifications.AddOnceOtherKeys | src/hooks/useDeliveryNotifications.ts:82-86 | adding an entry once leaves every other id present exactly as before |
| DeliveryNotifications.DropKeyOtherKeys | src/hooks/useDeliveryNotifications.ts:92-94 | removing an id leaves every other id present exactly as before |
| DeliveryNotifications.OrderMatchesLocation | src/hooks/useDeliveryNotifications.ts:36-53 | no profile ⇒ false; true ⇔ the panchayat is the rider's own or an assigned one, and for a registered partner with wards the ward is one of them |
| DeliveryNotifications.MoreWardsSeeMore | src/hooks/useDeliveryNotifications.ts:48-50 | enlarging a partner's wards never hides an order |
| DeliveryNotifications.SecondsLeft | src/hooks/useDeliveryNotifications.ts:109 | never negative; positive ⇔ at least a second is left; then it is the whole seconds left |
| DeliveryNotifications.SecondsLeftMonotone | src/hooks/useDeliveryNotifications.ts:109 | a later clock never shows more seconds |
| DeliveryNotifications.NewPendingOrder | src/hooks/useDeliveryNotifications.ts:64-80 | the entry's cutoff is now + 120 s with 120 s remaining (consistent with the countdown), and the ETA defaults to 60 |
| DeliveryNotifications.TickAll | src/hooks/useDeliveryNotifications.ts:106-110 | every surviving entry has its recomputed, positive seconds |
| DeliveryNotifications.TickAllMembers | src/hooks/useDeliveryNotifications.ts:106-110 | an entry survives the tick ⇔ it is a recounted entry with a second left |
| DeliveryNotifications.TickAllKeepsOrder | src/hooks/useDeliveryNotifications.ts:106-110 | survivors keep their relative order |
| DeliveryNotifications.TickAllKeepsUnique | src/hooks/useDeliveryNotifications.ts:106-110 | a tick keeps ids unique |
| DeliveryNotifications.TickAllIdempotent | src/hooks/useDeliveryNotifications.ts:106-110 | a second tick at the same instant changes nothing |
| DeliveryNotifications.TickNeverIncreases | src/hooks/useDeliveryNotifications.ts:105-111 | with a clock that does not go back, no countdown goes up |
| DeliveryNotifications.PendingRegistry.constructor | src/hooks/useDeliveryNotifications.ts:17-18 | an empty list and no alert |
| DeliveryNotifications.PendingRegistry.AddPendingOrder | src/hooks/useDeliveryNotifications.ts:82-87 | a pending id keeps the list (its cutoff is not reset); otherwise the new entry is appended; the alert is shown; ids stay unique |
| DeliveryNotifications.PendingRegistry.RemoveOrder | src/hooks/useDeliveryNotifications.ts:92-94 | the list is the filtered old list; the alert stays only while orders remain (effect at 118-121) |
| DeliveryNotifications.PendingRegistry.DismissAlert | src/hooks/useDeliveryNotifications.ts:97-99 | the alert is off and the list is unchanged |
| DeliveryNotifications.PendingRegistry.Tick | src/hooks/useDeliveryNotifications.ts:105-111 | the list becomes the ticked old list; the alert closes when it empties; the registry stays valid |
| DeliveryNotifications.PendingRegistry.OnOrderUpdate | src/hooks/useDeliveryNotifications.ts:125-168 | no handlers subscribe unless approved and available; an offerable order is added once; an assigned order is withdrawn; anything else changes nothing; the new list is `PendingAfterUpdate` of the old one |
| DeliveryNotifications.WaitedTooLongInSeconds | src/hooks/useDeliveryNotifications.ts:214-219 | the millisecond test agrees with the source's `seconds > 180` |
| DeliveryNotifications.AdminAlerts.constructor | src/hooks/useDeliveryNotifications.ts:189-190 | no alerts and no flag |
| DeliveryNotifications.AdminAlerts.OnOrderUpdate | src/hooks/useDeliveryNotifications.ts:203-231 | a ready, unassigned, pending delivery order that has waited more than 180 s is added once and raises the flag; an assigned order is removed; otherwise nothing changes |
| DeliveryNotifications.AdminAlerts.DismissAdminAlert | src/hooks/useDeliveryNotifications.ts:241-243 | the flag is off and the list is unchanged |
| DeliveryNotifications.AdminAlerts.RemoveAdminAlert | src/hooks/useDeliveryNotifications.ts:245-247 | the list is the filtered old list, and the flag is not touched |
| DeliveryNotifications.Subscribed | src/hooks/useDeliveryNotifications.ts:126 | the listeners are attached only for a profile that is approved and available |
| DeliveryNotifications.IsDispatchable | src/hooks/useDeliveryNotifications.ts:142-145 | delivery status "pending", no rider assigned, and a cloud-kitchen or homemade order |
| DeliveryNotifications.ShouldOffer | src/hooks/useDeliveryNotifications.ts:124-150 | a ready update is offered to a subscribed rider when it is dispatchable and matches the rider's location |
| DeliveryNotifications.PendingAfterUpdate | src/hooks/useDeliveryNotifications.ts:124-168 | the pending list after one update: unchanged when unsubscribed, an offered order added once, an assigned one dropped |
| DeliveryNotifications.UpdateTouchesOnlyItsOrder | src/hooks/useDeliveryNotifications.ts:124-168 | with unique ids, an update keeps ids unique, leaves an offered order pending and an assigned one not pending, and every other id pending exactly as before |
| DeliveryNotifications.Recount | src/hooks/useDeliveryNotifications.ts:107-109 | a tick recomputes only the seconds left of an entry, from its fixed deadline |
| DeliveryNotifications.IsEscalationCandidate | src/hooks/useDeliveryNotifications.ts:206-211 | an order is escalated when it is ready, still pending delivery, unassigned and delivered by a rider |
| DeliveryNotifications.WaitedTooLong | src/hooks/useDeliveryNotifications.ts:213-219 | more than 180 seconds since the last update; `WaitedTooLongInSeconds` ties the millisecond test to the source's test on seconds |
| UnacceptedOrdersAlert.GetWaitingTime | src/components/admin/UnacceptedOrdersAlert.tsx:92-98 | under 60 minutes `"<m> min"`; otherwise `"<m div 60>h <m mod 60>m"` |
| UnacceptedOrdersAlert.ParseMinutesText | src/components/admin/UnacceptedOrdersAlert.tsx:95 | `"<m> min"` reads back as m |
| UnacceptedOrdersAlert.ParseHoursMinutesText | src/components/admin/UnacceptedOrdersAlert.tsx:96-97 | `"<h>h <m>"` reads back as h × 60 + m |
| UnacceptedOrdersAlert.ParseHoursText | src/components/admin/UnacceptedOrdersAlert.tsx:96-97 | `"<h>h <m>m"` reads back as h × 60 + m |
| UnacceptedOrdersAlert.ParseGetWaitingTime | src/components/admin/UnacceptedOrdersAlert.tsx:92-98 | the text determines the whole minutes waited (the minute part is below 60) |
| UnacceptedOrdersAlert.DistinctIds | src/components/admin/UnacceptedOrdersAlert.tsx:53 | `new Set` keeps each id once, and the same ids |
| UnacceptedOrdersAlert.DistinctIdsFirstOccurrence | src/components/admin/UnacceptedOrdersAlert.tsx:53 | ids come out in the order of their first occurrence |
| UnacceptedOrdersAlert.PanchayatIds | src/components/admin/UnacceptedOrdersAlert.tsx:53 | one panchayat id per order, in order |
| UnacceptedOrdersAlert.QueriedPanchayatIds | src/components/admin/UnacceptedOrdersAlert.tsx:53 | the query asks for each order's panchayat, once, and for nothing else |
| UnacceptedOrdersAlert.NameMap | src/components/admin/UnacceptedOrdersAlert.tsx:59 | no rows give an empty map |
| UnacceptedOrdersAlert.PanchayatName | src/components/admin/UnacceptedOrdersAlert.tsx:63 | a known non-empty name is shown, otherwise "Unknown"; never empty |
| UnacceptedOrdersAlert.NameFromLastRow | src/components/admin/UnacceptedOrdersAlert.tsx:59-63 | an id with no row is "Unknown"; a row with a non-empty name and no later row with that id decides the name |
| UnacceptedOrdersAlert.EnrichOrders | src/components/admin/UnacceptedOrdersAlert.tsx:61-64 | one enriched order per order, everything but the name copied |
| UnacceptedOrdersAlert.EnrichKeepsOrders | src/components/admin/UnacceptedOrdersAlert.tsx:61-64 | count and order are kept, each order gets its looked-up name; a failed name query names every order "Unknown" |
| UnacceptedOrdersAlert.BuildStaffCounts | src/components/admin/UnacceptedOrdersAlert.tsx:69-81 | the loop builds the per-order counts record (the count or 0), and it has a key for exactly the orders' ids |
| UnacceptedOrdersAlert.StaffCountOfLastOrder | src/components/admin/UnacceptedOrdersAlert.tsx:79 | the last order with an id decides its count, defaulting to 0 |
| UnacceptedOrdersAlert.DisplayedStaffCount | src/components/admin/UnacceptedOrdersAlert.tsx:151 | a missing count shows 0, otherwise the count |
| UnacceptedOrdersAlert.DetailsAfterFetch | src/components/admin/UnacceptedOrdersAlert.tsx:48-66 | an empty list keeps the previous details (early return); otherwise they are the enriched orders |
| UnacceptedOrdersAlert.StaleDetailsAfterLastRemoved | src/components/admin/UnacceptedOrdersAlert.tsx:50-100 | once the last order is removed, the dialog still renders the old details |
| UnacceptedOrdersAlert.DetailsAfterFetchCorrected | src/components/admin/UnacceptedOrdersAlert.tsx:48-66 | the dialog renders ⇔ there are orders, one detail per order with the same ids |
| UnacceptedOrdersAlert.DetailsPanel.constructor | src/components/admin/UnacceptedOrdersAlert.tsx:44-45 | no details and no counts |
| UnacceptedOrdersAlert.DetailsPanel.FetchDetails | src/components/admin/UnacceptedOrdersAlert.tsx:48-85 | the details are `DetailsAfterFetch` of the old ones; counts are rebuilt only for a non-empty list |
| UnacceptedOrdersAlert.DetailsPanel.FetchDetailsCorrected | src/components/admin/UnacceptedOrdersAlert.tsx:48-85 | the details are the corrected ones, rendered ⇔ orders remain, with the counts rebuilt |
| UnacceptedOrdersAlert.AssignManually | src/components/admin/UnacceptedOrdersAlert.tsx:87-90 | the order is removed from the admin alerts through `onRemove`, taken to be `removeAdminAlert` (the flag untouched, the alerts still valid), then the route is the work-assignment page |
| UnacceptedOrdersAlert.DismissOrder | src/components/admin/UnacceptedOrdersAlert.tsx:166-170 | the order is removed from the admin alerts through `onRemove`, taken to be `removeAdminAlert` (the flag untouched, the alerts still valid), and the page stays |
| UnacceptedOrdersAlert.WaitingMinutes | src/components/admin/UnacceptedOrdersAlert.tsx:93-94 | whole minutes since the last update, rounded down; `GetWaitingTime` shows it as text |
| UnacceptedOrdersAlert.Rendered | src/components/admin/UnacceptedOrdersAlert.tsx:100 | the dialog renders only with details to show |
| DeliveryStaffWallet.Payout | src/components/admin/delivery/DeliveryStaffWalletTab.tsx:119-155 | no wallet ⇔ "Wallet not found"; "Insufficient job earnings" ⇔ earnings < amount; these are the only failures, and with a wallet it succeeds ⇔ amount ≤ earnings; paying all earnings leaves 0; success moves the amount from job earnings to settled and records an approved +amount settlement |
| DeliveryStaffWallet.Settlement | src/components/admin/delivery/DeliveryStaffWalletTab.tsx:171-207 | no wallet ⇔ "Wallet not found"; "Amount exceeds collected balance" ⇔ collected < amount; these are the only failures, and with a wallet it succeeds ⇔ amount ≤ collected; paying all collected cash leaves 0; success moves the amount from collected to settled and records an approved −amount settlement |
| DeliveryStaffWallet.MutationsKeepNonNegative | src/components/admin/delivery/DeliveryStaffWalletTab.tsx:129-188 | a non-negative amount keeps a non-negative wallet non-negative |
| DeliveryStaffWallet.PayoutSettlementCommute | src/components/admin/delivery/DeliveryStaffWalletTab.tsx:131-191 | a payout and a settlement that both succeed end in the same wallet in either order |
| DeliveryStaffWallet.WalletStore.constructor | src/components/admin/delivery/DeliveryStaffWalletTab.tsx:122-126 | the given wallets and an empty log |
| DeliveryStaffWallet.WalletStore.WalletOf | src/components/admin/delivery/DeliveryStaffWalletTab.tsx:122-128 | `.single()` finds the stored wallet, if any |
| DeliveryStaffWallet.WalletStore.ProcessPayout | src/components/admin/delivery/DeliveryStaffWalletTab.tsx:119-155 | the result is `Payout` of the stored wallet; success overwrites that wallet and appends the record; failure writes nothing; non-negative wallets stay so |
| DeliveryStaffWallet.WalletStore.ProcessSettlement | src/components/admin/delivery/DeliveryStaffWalletTab.tsx:171-207 | the same for `Settlement` |
| DeliveryStaffWallet.AttachWallets | src/components/admin/delivery/DeliveryStaffWalletTab.tsx:84-95 | each listed rider, in order, with their stored wallet or none |
| DeliveryStaffWallet.ShownBalance | src/components/admin/delivery/DeliveryStaffWalletTab.tsx:267-291 | a rider without a wallet counts 0 |
| DeliveryStaffWallet.Occurrences | src/components/admin/delivery/DeliveryStaffWalletTab.tsx:84-95 | a count of listings bounded by the list |
| DeliveryStaffWallet.TotalAfterUpdate | src/components/admin/delivery/DeliveryStaffWalletTab.tsx:267-291 | replacing a wallet moves a summary total by the change times the rider's listings |
| DeliveryStaffWallet.TotalsAfterPayout | src/components/admin/delivery/DeliveryStaffWalletTab.tsx:131-291 | a payout of a rider listed once lowers the job-earnings card and raises the settled card by the amount, and leaves collections |
| DeliveryStaffWallet.TotalsAfterSettlement | src/components/admin/delivery/DeliveryStaffWalletTab.tsx:183-291 | a settlement lowers the collections card and raises the settled card by the amount, and leaves job earnings |
| DeliveryStaffWallet.FilteredStaff | src/components/admin/delivery/DeliveryStaffWalletTab.tsx:222-226 | a rider is kept ⇔ the lower-cased name holds the lower-cased query or the mobile number holds the raw query |
| DeliveryStaffWallet.EmptySearchKeepsAll | src/components/admin/delivery/DeliveryStaffWalletTab.tsx:222-226 | an empty search shows everyone, in order |
| DeliveryStaffWallet.RowButtonsNeedPositiveBalance | src/components/admin/delivery/DeliveryStaffWalletTab.tsx:357-366 | "Payout" is enabled ⇔ job earnings are positive; "Settle" ⇔ collections are positive |
| DeliveryStaffWallet.ConfirmedMutationsKeepNonNegative | src/components/admin/delivery/DeliveryStaffWalletTab.tsx:415-473 | a confirmed amount is positive, so what it starts keeps a non-negative wallet non-negative |
| DeliveryStaffWallet.DefaultPayoutEmptiesEarnings | src/components/admin/delivery/DeliveryStaffWalletTab.tsx:228-423 | confirming the pre-filled payout is enabled, sends the whole earnings and leaves 0 |
| DeliveryStaffWallet.Total | src/components/admin/delivery/DeliveryStaffWalletTab.tsx:267-291 | a summary card sums one balance over the listed riders, a rider without a wallet adding 0; how a payout or settlement moves it is `TotalAfterUpdate` |
| DeliveryStaffWallet.MatchesSearch | src/components/admin/delivery/DeliveryStaffWalletTab.tsx:222-226 | a rider matches when the lower-cased name contains the lower-cased query or the mobile number contains the query as typed |
| DeliveryStaffWallet.FilteredStaffConcat | src/components/admin/delivery/DeliveryStaffWalletTab.tsx:222-226 | filtering works rider by rider, so the kept riders stay in list order |
| DeliveryStaffWallet.PayoutButtonEnabled | src/components/admin/delivery/DeliveryStaffWalletTab.tsx:357 | the row's "Payout" button is enabled by a wallet with positive job earnings (`RowButtonsNeedPositiveBalance`) |
| DeliveryStaffWallet.SettleButtonEnabled | src/components/admin/delivery/DeliveryStaffWalletTab.tsx:366 | the row's "Settle" button is enabled by a wallet with positive collections (`RowButtonsNeedPositiveBalance`) |
| DeliveryStaffWallet.DefaultPayoutText | src/components/admin/delivery/DeliveryStaffWalletTab.tsx:228-232 | the payout dialog opens with the job earnings as text, or "0" without a wallet; `DefaultPayoutEmptiesEarnings` shows it confirms and pays out everything |
| DeliveryStaffWallet.ConfirmEnabled | src/components/admin/delivery/DeliveryStaffWalletTab.tsx:415-473 | "Confirm" needs non-empty amount text that parses to a positive amount while no request runs |
| DeliveryStaffWallet.ConfirmedAmount | src/components/admin/delivery/DeliveryStaffWalletTab.tsx:415-473 | the amount a confirmed dialog sends is the parsed text; `ConfirmedMutationsKeepNonNegative` shows it is positive |
| ServicesStep.AvailableServices | src/components/indoor-events/ServicesStep.tsx:26-63 | six services, all off |
| ServicesStep.AvailableServicesDistinct | src/components/indoor-events/ServicesStep.tsx:26-63 | their ids are distinct |
| ServicesStep.InitialSelection | src/components/indoor-events/ServicesStep.tsx:82-87 | an update is sent ⇔ the selection is empty, and it is the catalogue, all off |
| ServicesStep.ToggleService | src/components/indoor-events/ServicesStep.tsx:90-96 | only the entries with that id flip `enabled`; every other field and entry is kept |
| ServicesStep.ToggleTwice | src/components/indoor-events/ServicesStep.tsx:90-96 | toggling twice restores the list |
| ServicesStep.TogglesCommute | src/components/indoor-events/ServicesStep.tsx:90-96 | toggles of two ids commute |
| ServicesStep.ServicePrice | src/components/indoor-events/ServicesStep.tsx:98-103 | per guest: price × guests; fixed: price |
| ServicesStep.ServiceTotal | src/components/indoor-events/ServicesStep.tsx:105-107 | nothing enabled gives 0 |
| ServicesStep.EnabledCount | src/components/indoor-events/ServicesStep.tsx:109 | at most the list length; 0 ⇔ nothing is enabled |
| ServicesStep.NoSummaryMeansNoCost | src/components/indoor-events/ServicesStep.tsx:105-168 | the summary is shown ⇔ some service is on; without it, the total is 0 |
| ServicesStep.ToggleChangesTotal | src/components/indoor-events/ServicesStep.tsx:90-109 | toggling a service with a unique id adds or subtracts exactly its price and moves the count by one |
| ServicesStep.EverythingOn | src/components/indoor-events/ServicesStep.tsx:26-107 | everything on for g guests costs 90g + 15000 |
| ServicesStep.ShowSummary | src/components/indoor-events/ServicesStep.tsx:168 | the summary card is shown when at least one service is on; `NoSummaryMeansNoCost` relates it to the total |
| LocationContext.GetWardsForPanchayat | src/contexts/LocationContext.tsx:89-91 | a ward count n gives the list 1..n |
| LocationContext.WardsAreOneToCount | src/contexts/LocationContext.tsx:89-91 | a number is listed ⇔ it is between 1 and the count; the list is increasing |
| LocationContext.WardAfterSelect | src/contexts/LocationContext.tsx:94-100 | the ward is cleared ⇔ it was already none or the chosen panchayat has fewer wards; otherwise it is kept |
| LocationContext.SelectKeepsWardInRange | src/contexts/LocationContext.tsx:94-100 | after choosing a panchayat, a kept ward is one of its wards |
| LocationContext.FindById | src/contexts/LocationContext.tsx:60 | a found panchayat is listed with that id; none ⇔ no panchayat has it |
| LocationContext.FindByIdFirst | src/contexts/LocationContext.tsx:60 | the first panchayat with the id is the one found |
| LocationContext.Saved | src/contexts/LocationContext.tsx:56-66 | a stored value counts only if it is non-empty |
| LocationContext.SavedWardReadsBack | src/contexts/LocationContext.tsx:66-82 | a saved ward is read back as the same number |
| LocationContext.LocationProvider.constructor | src/contexts/LocationContext.tsx:26-29 | nothing loaded or selected, loading, and the initial storage |
| LocationContext.LocationProvider.FinishFetch | src/contexts/LocationContext.tsx:31-52 | the panchayats are the rows when data came back, and loading ends either way |
| LocationContext.LocationProvider.RestoreSaved | src/contexts/LocationContext.tsx:55-69 | a saved id is restored only if panchayats are loaded and one has it; a saved ward is taken when it parses; nothing else changes |
| LocationContext.LocationProvider.SavePanchayat | src/contexts/LocationContext.tsx:72-78 | the selection's id is stored, or the key is removed |
| LocationContext.LocationProvider.SavePanchayatCorrected | src/contexts/LocationContext.tsx:72-78 | the same, except that an empty selection while loading leaves storage alone |
| LocationContext.LocationProvider.SaveWard | src/contexts/LocationContext.tsx:80-86 | the ward's decimal text is stored, or the key is removed |
| LocationContext.LocationProvider.HandleSetSelectedPanchayat | src/contexts/LocationContext.tsx:94-100 | the selection is the argument and the ward follows `WardAfterSelect` |
| LocationContext.LocationProvider.SetSelectedWardNumber | src/contexts/LocationContext.tsx:28 | the ward is the argument; nothing else changes |
| LocationContext.ReloadAsWritten | src/contexts/LocationContext.tsx:31-78 | with the source's effects in mount order, a saved panchayat that the fetch returns is never restored |
| LocationContext.ReloadCorrected | src/contexts/LocationContext.tsx:31-78 | with the corrected save effect, the saved panchayat is selected after the fetch |
| IndoorEventsOrders.ToggleCookSelection | src/pages/admin/indoor-events/IndoorEventsOrders.tsx:233-239 | the cook's membership flips and no one else's changes; a new cook is appended |
| IndoorEventsOrders.ToggleRemovesInPlace | src/pages/admin/indoor-events/IndoorEventsOrders.tsx:233-239 | deselecting keeps the others in their order |
| IndoorEventsOrders.ToggleCookTwice | src/pages/admin/indoor-events/IndoorEventsOrders.tsx:233-239 | selecting then deselecting a cook restores the selection |
| IndoorEventsOrders.RemoveAllKeepsDistinct | src/pages/admin/indoor-events/IndoorEventsOrders.tsx:236 | the filter keeps a list free of duplicates |
| IndoorEventsOrders.ToggleKeepsDistinct | src/pages/admin/indoor-events/IndoorEventsOrders.tsx:233-239 | the selection never holds a cook twice |
| IndoorEventsOrders.FilteredOrders | src/pages/admin/indoor-events/IndoorEventsOrders.tsx:141-149 | an empty search keeps all; otherwise a booking is kept ⇔ the lower-cased query is in its lower-cased number or name, or in its mobile |
| IndoorEventsOrders.FilteredOrdersConcat | src/pages/admin/indoor-events/IndoorEventsOrders.tsx:141-149 | filtering keeps the list's order |
| IndoorEventsOrders.FilteredOrdersIdempotent | src/pages/admin/indoor-events/IndoorEventsOrders.tsx:141-149 | filtering twice is filtering once |
| IndoorEventsOrders.DigitQueryFindsMobile | src/pages/admin/indoor-events/IndoorEventsOrders.tsx:143-147 | a digit query found in a mobile number matches |
| IndoorEventsOrders.CookRefsOf | src/pages/admin/indoor-events/IndoorEventsOrders.tsx:106-116 | a booking's rows are empty ⇔ no row has its id |
| IndoorEventsOrders.Grouped | src/pages/admin/indoor-events/IndoorEventsOrders.tsx:111-117 | a key exists ⇔ some row has that booking id |
| IndoorEventsOrders.AssignedCooksOf | src/pages/admin/indoor-events/IndoorEventsOrders.tsx:122 | a missing key gives `[]` |
| IndoorEventsOrders.GroupAssignments | src/pages/admin/indoor-events/IndoorEventsOrders.tsx:111-117 | the `forEach` loop builds exactly the grouping |
| IndoorEventsOrders.GroupingIsPerOrder | src/pages/admin/indoor-events/IndoorEventsOrders.tsx:111-122 | each booking gets exactly its own rows, in row order |
| IndoorEventsOrders.WithAssignedCooks | src/pages/admin/indoor-events/IndoorEventsOrders.tsx:119-123 | one booking per booking, only the cooks replaced |
| IndoorEventsOrders.FetchedOrdersCarryTheirCooks | src/pages/admin/indoor-events/IndoorEventsOrders.tsx:104-123 | after the fetch every booking carries the rows with its id |
| IndoorEventsOrders.CookIds | src/pages/admin/indoor-events/IndoorEventsOrders.tsx:166 | the cook ids of the rows, in order |
| IndoorEventsOrders.DropOrder | src/pages/admin/indoor-events/IndoorEventsOrders.tsx:173-176 | the delete keeps exactly the rows of other bookings |
| IndoorEventsOrders.PendingRows | src/pages/admin/indoor-events/IndoorEventsOrders.tsx:180-184 | one "pending" row per selected cook, in order |
| IndoorEventsOrders.CookRefsOfConcat | src/pages/admin/indoor-events/IndoorEventsOrders.tsx:106-116 | a booking's rows of a concatenation are the concatenation of its rows |
| IndoorEventsOrders.DropOrderCookRefs | src/pages/admin/indoor-events/IndoorEventsOrders.tsx:173-176 | the delete empties that booking and keeps every other one |
| IndoorEventsOrders.PendingRowsCookRefs | src/pages/admin/indoor-events/IndoorEventsOrders.tsx:179-188 | the inserted rows belong to that booking only, one pending per cook |
| IndoorEventsOrders.AssignReplacesCooks | src/pages/admin/indoor-events/IndoorEventsOrders.tsx:170-199 | after the assignment the booking has exactly the selected cooks, each pending, and others are unchanged |
| IndoorEventsOrders.ReopenPreselectsAssigned | src/pages/admin/indoor-events/IndoorEventsOrders.tsx:111-199 | after an assignment and a refetch, reopening the dialog pre-selects exactly the assigned cooks |
| IndoorEventsOrders.OfferedActions | src/pages/admin/indoor-events/IndoorEventsOrders.tsx:441-461 | "Confirm" only when pending, "Assign cooks" only when confirmed, "Mark delivered" only when preparing, "Cancel" unless cancelled or delivered |
| IndoorEventsOrders.ActionsMoveForward | src/pages/admin/indoor-events/IndoorEventsOrders.tsx:441-461 | every offered action moves the booking strictly forward; nothing is offered ⇔ delivered or cancelled |
| IndoorEventsOrders.EventBoard.constructor | src/pages/admin/indoor-events/IndoorEventsOrders.tsx:170-199 | the given tables |
| IndoorEventsOrders.EventBoard.AssignCooks | src/pages/admin/indoor-events/IndoorEventsOrders.tsx:170-199 | the delete always happens, the insert only with cooks; success ⇔ the insert (if any) and the status update succeed; the status becomes "preparing" only on success |
| IndoorEventsOrders.EventBoard.UpdateStatus | src/pages/admin/indoor-events/IndoorEventsOrders.tsx:151-156 | a successful write sets the booking's status; unknown ids and failures change nothing |
| IndoorEventsOrders.OrdersPage.constructor | src/pages/admin/indoor-events/IndoorEventsOrders.tsx:163-168 | no booking selected, no dialog, no cooks |
| IndoorEventsOrders.OrdersPage.OpenCookSelection | src/pages/admin/indoor-events/IndoorEventsOrders.tsx:163-168 | the booking is selected, the dialog opens, and its cooks are pre-selected |
| IndoorEventsOrders.OrdersPage.ToggleCook | src/pages/admin/indoor-events/IndoorEventsOrders.tsx:233-239 | the selection is toggled; nothing else changes |
| IndoorEventsOrders.OrdersPage.HandleAssignCooksAndPrepare | src/pages/admin/indoor-events/IndoorEventsOrders.tsx:201-231 | refused ⇔ no booking or no cooks (nothing written); otherwise the board is `AssignCooks`; success clears the dialog state; failure keeps it |
| IndoorEventsOrders.OrdersPage.HandleUpdateStatus | src/pages/admin/indoor-events/IndoorEventsOrders.tsx:151-161 | the status write as `UpdateStatus`, and the detail dialog closes only on success |
| IndoorEventsOrders.MatchesSearch | src/pages/admin/indoor-events/IndoorEventsOrders.tsx:141-149 | the lower-cased query is in the lower-cased order number or customer name, or in the stored mobile number |
| IndoorEventsOrders.AfterAssign | src/pages/admin/indoor-events/IndoorEventsOrders.tsx:170-188 | the order's old rows are deleted and one pending row per chosen cook is appended; `AssignReplacesCooks` shows only that order changes |
| AdminCooks.EveryRuleListed | src/pages/admin/AdminCooks.tsx:25-35 | every validation rule is checked |
| AdminCooks.FailedAmong | src/pages/admin/AdminCooks.tsx:25-35 | exactly the failing rules of a list, without duplicates |
| AdminCooks.Issues | src/pages/admin/AdminCooks.tsx:25-35 | a message is reported ⇔ its rule fails, each once |
| AdminCooks.ValidIff | src/pages/admin/AdminCooks.tsx:25-35 | valid ⇔ kitchen name ≥ 2, mobile exactly 10 digits, password ≥ 6, a panchayat, and at least one order type |
| AdminCooks.DefaultForm | src/pages/admin/AdminCooks.tsx:197-206 | all three order types checked, and the empty form is invalid |
| AdminCooks.CheckOrderType | src/pages/admin/AdminCooks.tsx:499-505 | checking appends; unchecking removes the type; other types are unaffected |
| AdminCooks.UncheckKeepsOthers | src/pages/admin/AdminCooks.tsx:504 | unchecking keeps the others in order |
| AdminCooks.UncheckAllIsInvalid | src/pages/admin/AdminCooks.tsx:499-505 | unchecking all three default types empties the list and makes the form invalid |
| AdminCooks.FindStaff | src/pages/admin/AdminCooks.tsx:210 | a found profile is listed with that id; none ⇔ no list or no such id |
| AdminCooks.KitchenNameFor | src/pages/admin/AdminCooks.tsx:214 | the staff name is a prefix, and the rest is exactly "'s Kitchen" |
| AdminCooks.Registration.constructor | src/pages/admin/AdminCooks.tsx:197-206 | the default form and no staff |
| AdminCooks.Registration.HandleStaffSelect | src/pages/admin/AdminCooks.tsx:209-223 | a found profile fills staff id, kitchen name, mobile and a non-empty panchayat; otherwise only the staff id is cleared |
| AdminCooks.Registration.SetOrderTypeChecked | src/pages/admin/AdminCooks.tsx:499-505 | the order types follow `CheckOrderType`; nothing else changes |
| AdminCooks.PrefillNeedsOnlyPassword | src/pages/admin/AdminCooks.tsx:25-223 | pre-filling from a profile with a 10-digit mobile and a panchayat makes the form valid once the password and order types are |
| AdminCooks.SignUpEmail | src/pages/admin/AdminCooks.tsx:233 | the mobile number followed by "@pennycarbs.local" |
| AdminCooks.MobileOfEmail | src/pages/admin/AdminCooks.tsx:233 | a recovered mobile builds back the same e-mail |
| AdminCooks.SignUpEmailRoundTrip | src/pages/admin/AdminCooks.tsx:233 | the e-mail gives back its mobile, and distinct mobiles give distinct e-mails |
| AdminCooks.AccountFor | src/pages/admin/AdminCooks.tsx:228-241 | a selected staff member's user is reused; otherwise a sign-up with the synthesized e-mail and the form's password |
| AdminCooks.GetStatusColor | src/pages/admin/AdminCooks.tsx:306-315 | an unknown status ⇔ "bg-gray-500" |
| AdminCooks.IssueMessage | src/pages/admin/AdminCooks.tsx:25-35 | each failed rule of the cook schema has the schema's message |
| AdminCooks.Fails | src/pages/admin/AdminCooks.tsx:25-35 | the rule behind each issue: name under 2 characters, mobile not 10 characters or not all digits, password under 6, no panchayat, no order type |
| AdminCooks.IsValid | src/pages/admin/AdminCooks.tsx:25-35 | the form passes when no rule fails; `ValidIff` spells the rules out |

## Left out

- Database queries and writes are left out. Query results are parameters, and a write's success is a boolean parameter (`insertOk`, `updateOk`, `ok`). The staff-count query in `UnacceptedOrdersAlert` is a function `countFor` from panchayat id to an optional count.
- Realtime subscriptions, channel set-up and teardown, and the interleaving of concurrent callbacks are left out. Each event is one method call.
- Timers and clocks are left out. The current time is a parameter (milliseconds, or minutes of the day for the slot window), and the one-second interval is a `Tick` call.
- The notification sound, toasts, navigation other than the returned route, query invalidation, and all JSX rendering are left out, apart from the rules that enable buttons or show the summary and the dialog.
- The rider profile is an input; its fetch (`useDeliveryProfile`) is not part of this model. The customer-profile lookup in `addPendingOrder` is an input too.
- Amounts are whole numbers. `parseFloat`, fractional rupees and floating-point rounding are left out.
- DeliveryStaffWallet.ConfirmEnabled: accepts only decimal-integer amount text, which is weaker than the source's `parseFloat(...) > 0` test.
- The wallet update and its transaction insert are separate writes in the source. The model treats them as one step, so a failure between them (wallet changed, no record) is left out.
- `localeCompare` is modelled as code-point order, and `toLowerCase` as ASCII-only lower-casing. Locale collation and Unicode case mapping are left out. String lengths count code points, while the source (so also the validation library's `min` and `max` in `AdminCooks.Fails`) counts UTF-16 code units; a string with characters outside the Basic Multilingual Plane, such as a password of three emoji, is longer in the source than in the model.
- DivisionItems.Sort: is an insertion sort proved sorted and a permutation. It does not state the stability of `Array.prototype.sort` for items that compare equal.
- SlotWindow.ParseClock: a time that is not `HH:MM` gives None rather than the source's `NaN` arithmetic.
- SlotWindow.CheckIfOrderingOpen: takes the cutoff as whole non-negative minutes; fractional or negative `cutoff_hours_before` is not modelled.
- LocationContext.LocationProvider.RestoreSaved: a saved ward text that is not a decimal integer keeps the previous ward. In the source, `parseInt` would read a leading number or set `NaN`. The model's own save effect only ever writes decimal text.
- The order in which React runs the effects of a render is written out explicitly in `LocationContext.ReloadAsWritten` and `LocationContext.ReloadCorrected`. It is not derived from a model of React.
- UnacceptedOrdersAlert.AssignManually: takes the component's `onRemove` prop to be the admin hook's `removeAdminAlert`, and its `open` prop to be `showAdminAlert`. The page that wires them together is not part of this model.
- UnacceptedOrdersAlert.DismissOrder: takes `onRemove` to be `removeAdminAlert` in the same way.
- IndoorEventsOrders.EventBoard.AssignCooks: the delete is modelled as always succeeding, because the source does not check its error.
- `IndoorEventsOrders`: the mobile number is matched against the lower-cased query, as the code does (IndoorEventsOrders.tsx:147); a query of digits is unaffected.
- The profile attached to each booking (`profileMap.get(...) || null`) is part of the input rows.
- The cooks-list query, the assignment-card rendering and `toggleCookStatus` in `AdminCooks` are left out (database writes only). Of `handleSubmit`, only the choice of account (`AdminCooks.AccountFor`) is modelled; the inserts into `cooks` and `user_roles` are left out.
- The validation library's mechanics are left out. Only the rules of the cook schema and their messages are modelled.
- `src/integrations/supabase/types.ts` and `src/components/indoor-events/ServiceOptionDialog.tsx` are not part of this model.

## Findings

| source | as written | input that shows it | evidently intended | confidence | as-written member | corrected member |
|---|---|---|---|---|---|---|
| src/contexts/LocationContext.tsx:55-78 | on the first render the save effect runs with no selection and removes `selectedPanchayatId` before the panchayats have loaded, so the restore effect after the fetch finds nothing saved | storage `{selectedPanchayatId: "p1"}`, fetch returns `[Panchayat("p1", …)]` | the saved panchayat is selected again after a reload | not executed | LocationContext.ReloadAsWritten | LocationContext.ReloadCorrected |
| src/components/admin/UnacceptedOrdersAlert.tsx:50-100 | when the order list becomes empty, `fetchDetails` returns early and leaves `ordersWithDetails` as it was, so the dialog keeps showing the last withdrawn order (with `onRemove` wired to `removeAdminAlert` and `open` to `showAdminAlert`, as under "Left out") | details `[o]`, then the card's "Dismiss" on `o` (which stays on the page) leaves `orders == []` | with no orders the dialog renders nothing | not executed | UnacceptedOrdersAlert.StaleDetailsAfterLastRemoved | UnacceptedOrdersAlert.DetailsPanel.FetchDetailsCorrected |
