# monjaslim — a Dafny model of the funnel, its attribution and the delivery dashboard

monjaslim is a React site that sells a slimming supplement through a
four-step lead-capture wizard (personal data, kit, call schedule,
review); a purchase-method step with a CEP check for the Divinópolis
delivery area exists beside it but is not one of the wizard's steps. It
records where each visitor came from (UTM parameters, Facebook click and
redirect data, a session id, funnel events with timings) in the browser's
storage, and it offers two internal screens: a delivery dashboard that
orders the "pay on delivery" leads into a route and prints thermal labels,
and an analytics dashboard (funnel, per-campaign table, live activity).

This project models that core in Dafny, one module per source file:

- **Wizard**: `FormWizard`, `PurchaseMethodStep`, `CepValidationModal`,
  `PersonalDataStep`, `SchedulingStep` and `TreatmentStep`, with `Cep` for the
  postal-code rules. Components whose state changes step by step are classes.
- **Attribution**: `Tracking` (`src/utils/tracking.ts`), `UtmTracker`
  (`src/utils/utm-tracker.ts`) and `UseUtmTracking`
  (`src/hooks/useUTMTracking.tsx`). They work over `Storage.Browser`, the
  modelled local and session storage, and `UrlParams`, an ordered query
  string.
- **Delivery**: `DeliveryManagement` (`src/hooks/useDeliveryManagement.tsx`).
  It is built on `Grouping` (the `reduce` into buckets), `NeighbourhoodWalk`
  (the neighbourhood table and `getNeighborhoodOrder`) and `Sorting` (a
  stable sort, and the in-place array sort). `Pedidos`, `StatusUpdateModal`,
  `DeliveryFilters` and `ThermalPrint` model the orders page, the status
  dialog, the filter bar and the label printing.
- **Analytics**: `FunnelAnalytics`, `CampaignAnalytics` and
  `RealtimeTracking` (the three data hooks), over `AnalyticsRows` (row
  types and rates). `FunnelStepsLive`, `RealtimeActivityCard` and `UtmTable`
  model the three dashboard components. `Tally` models a JavaScript `Map`
  used as a counter.

Shared helpers:

- `Text` holds string helpers: digits, joining, ordinal comparison, number
  formatting.
- `Leads` holds the lead record.
- `TrackingTypes` holds the form and tracking records.

Functions state what the source computes. Methods mirror its loops and
state updates, and are proved against those functions. Lemmas state the
promises the code makes: that ordering only permutes, that grouping round
trips, that counts add up, and which parameters take precedence.

## Model

| member | source | states |
|---|---|---|
| Leads.Ids | src/pages/Pedidos.tsx:68 | the ids of a list of leads, one per lead and in list order |
| Grouping.KeyOf | src/hooks/useDeliveryManagement.tsx:95-107 | a missing city or neighbourhood is grouped under its placeholder, so a key is never empty |
| Grouping.Bucket | src/hooks/useDeliveryManagement.tsx:94-99 | a bucket holds exactly the leads with that key, in list order |
| Grouping.Keys | src/hooks/useDeliveryManagement.tsx:94-99 | the keys are distinct and are exactly the keys that occur, in first-encounter order |
| Grouping.BucketMember | src/hooks/useDeliveryManagement.tsx:94-99 | a lead is in the bucket of a key exactly when it is in the list and has that key |
| Grouping.KeysFirstSeen | src/hooks/useDeliveryManagement.tsx:94-99 | the keys are the leads' keys, each once, in the order they first occur (the first-seen order shared with the step and modality tallies) |
| Grouping.KeysCover | src/hooks/useDeliveryManagement.tsx:94-99 | every lead's key is among the keys |
| Grouping.KeysInhabited | src/hooks/useDeliveryManagement.tsx:94-99 | every key has a non-empty bucket |
| Grouping.BucketAbsent | src/hooks/useDeliveryManagement.tsx:94-99 | a key that never occurs has an empty bucket |
| Grouping.BucketsPartition | src/hooks/useDeliveryManagement.tsx:94-99 | the buckets, concatenated in key order, are a permutation of the list |
| Grouping.BucketsPartitionReordered | src/hooks/useDeliveryManagement.tsx:114-131 | the buckets, concatenated in any distinct order of all keys, are a permutation of the list |
| Grouping.FlattenOrdered | src/hooks/useDeliveryManagement.tsx:116-131 | concatenated blocks labelled by keys are ordered by the position of their key |
| Grouping.RegroupFlatten | src/hooks/useDeliveryManagement.tsx:218-234 | regrouping a concatenation of non-empty blocks with distinct labels gives back the labels and the blocks |
| NeighbourhoodWalk.ProximityWellFormed | src/hooks/useDeliveryManagement.tsx:15-24 | every entry of the neighbourhood table lists distinct, non-empty names |
| NeighbourhoodWalk.SpliceIsRemoveFirst | src/hooks/useDeliveryManagement.tsx:178-182 | `indexOf` followed by `splice` removes the first occurrence, and only when there is one |
| NeighbourhoodWalk.PullCount | src/hooks/useDeliveryManagement.tsx:176-183 | the neighbour pass moves names from the remaining list to the output, only table neighbours, losing none |
| NeighbourhoodWalk.WalkSub | src/hooks/useDeliveryManagement.tsx:157-187 | the walk emits only names of its input, never more often than they occur there |
| NeighbourhoodWalk.GetNeighborhoodOrder | src/hooks/useDeliveryManagement.tsx:157-187 | the loop produces the walk order |
| NeighbourhoodWalk.PullNeighbours | src/hooks/useDeliveryManagement.tsx:176-183 | the neighbour pass pushes each neighbour still remaining and splices it out |
| NeighbourhoodWalk.WalkPermutation | src/hooks/useDeliveryManagement.tsx:157-187 | without a blank name the walk is a permutation of its input |
| NeighbourhoodWalk.WalkStopsAtBlank | src/hooks/useDeliveryManagement.tsx:170-171 | a blank name stops the walk: it is never emitted and the names after it are lost |
| NeighbourhoodWalk.WalkDistinct | src/hooks/useDeliveryManagement.tsx:157-187 | over distinct names the walk emits distinct names |
| NeighbourhoodWalk.PullFilters | src/hooks/useDeliveryManagement.tsx:176-183 | over distinct names the neighbour pass takes the neighbours still remaining in table order and leaves the rest in order |
| NeighbourhoodWalk.WalkStep | src/hooks/useDeliveryManagement.tsx:169-184 | the front name is followed at once by its remaining neighbours in table order, then the walk resumes over the rest |
| NeighbourhoodWalk.UnlistedPullsNothing | src/hooks/useDeliveryManagement.tsx:176 | a name missing from the table pulls no neighbour |
| NeighbourhoodWalk.OneHopNotDepthFirst | src/hooks/useDeliveryManagement.tsx:169-184 | a pulled neighbour does not pull its own neighbours (Interlagos, Bom Pastor, Centro, Esplanada) |
| Sorting.SortByPermutation | src/hooks/useDeliveryManagement.tsx:88-153 | sorting only reorders the list |
| Sorting.SortBySorted | src/hooks/useDeliveryManagement.tsx:88-153 | under a consistent comparator the sorted list is ordered by it |
| Sorting.SortBySortedUnchanged | src/hooks/useDeliveryManagement.tsx:88-153 | a list already ordered by the comparator comes back unchanged |
| Sorting.SortByIdempotent | src/hooks/useDeliveryManagement.tsx:88-153 | under a consistent comparator, sorting a sorted list again changes nothing |
| Sorting.SortByStable | src/hooks/useDeliveryManagement.tsx:88-153 | the sort is stable: the elements tied with any given element come out in the order they went in |
| Sorting.SortInPlace | src/hooks/useDeliveryManagement.tsx:88-153 | the in-place array sort leaves the array holding the stable sort of its old contents |
| Sorting.InsertFrom | src/hooks/useDeliveryManagement.tsx:88-153 | one pass moves an element right past the sorted elements it compares after |
| DeliveryManagement.RecentNewestFirst | src/hooks/useDeliveryManagement.tsx:86-88 | the recent order keeps every lead, lists the newest first, and sorting it again changes nothing |
| DeliveryManagement.RecentSortedUnchanged | src/hooks/useDeliveryManagement.tsx:86-88 | a list already newest first is its own recent order |
| DeliveryManagement.RecentStable | src/hooks/useDeliveryManagement.tsx:86-88 | leads created at the same instant keep their input order |
| DeliveryManagement.CityCmpConsistent | src/hooks/useDeliveryManagement.tsx:137-153 | the city comparator is total and transitive |
| DeliveryManagement.CityOrderSorted | src/hooks/useDeliveryManagement.tsx:136-155 | the city order keeps every lead and sorts by city, then neighbourhood, then newest first (a missing city or neighbourhood sorts under the key "ZZZ"); sorting it again changes nothing |
| DeliveryManagement.CityStable | src/hooks/useDeliveryManagement.tsx:136-155 | leads with the same city and neighbourhood keys, created at the same instant, keep their input order |
| DeliveryManagement.CepBlockAscending | src/hooks/useDeliveryManagement.tsx:119-123 | in a neighbourhood where every lead has a CEP, the leads come in ascending CEP order |
| DeliveryManagement.NoCepBlockNewestFirst | src/hooks/useDeliveryManagement.tsx:119-126 | in a neighbourhood where no lead has a CEP, the newest lead comes first |
| DeliveryManagement.CepCmpNotTransitive | src/hooks/useDeliveryManagement.tsx:119-126 | with and without CEP mixed, the comparator is not transitive (three concrete leads) |
| DeliveryManagement.CitySections | src/hooks/useDeliveryManagement.tsx:106-130 | one section per neighbourhood of the city, in walk order |
| DeliveryManagement.Route | src/hooks/useDeliveryManagement.tsx:92-134 | one group per city, in first-encounter order |
| DeliveryManagement.ProximityPermutation | src/hooks/useDeliveryManagement.tsx:92-134 | the proximity order loses and duplicates no lead |
| DeliveryManagement.ProximityCitiesContiguous | src/hooks/useDeliveryManagement.tsx:94-131 | each city's leads are contiguous, cities in first-encounter order |
| DeliveryManagement.ProximityNeighbourhoodsInWalkOrder | src/hooks/useDeliveryManagement.tsx:106-130 | within a city, the leads come neighbourhood by neighbourhood in the walk order |
| DeliveryManagement.GroupBy | src/hooks/useDeliveryManagement.tsx:94-111 | the `reduce` yields the keys in first-encounter order and each key's bucket |
| DeliveryManagement.SortByProximity | src/hooks/useDeliveryManagement.tsx:92-134 | the method returns the proximity order |
| DeliveryManagement.SortCity | src/hooks/useDeliveryManagement.tsx:104-131 | one city's pass returns its sections' leads, section after section |
| DeliveryManagement.SectionsOf | src/hooks/useDeliveryManagement.tsx:224-231 | one section per neighbourhood, in first-encounter order |
| DeliveryManagement.Grouped | src/hooks/useDeliveryManagement.tsx:218-234 | one group per city, in first-encounter order |
| DeliveryManagement.GroupedStep | src/hooks/useDeliveryManagement.tsx:223-231 | filing one more lead updates the grouping as `getGroupedLeads` does |
| DeliveryManagement.GetGroupedLeads | src/hooks/useDeliveryManagement.tsx:218-234 | no grouping unless the proximity order is selected, else the city and neighbourhood grouping of the list |
| DeliveryManagement.FileLead | src/hooks/useDeliveryManagement.tsx:224-230 | filing one lead creates its city and neighbourhood on first sight and appends it |
| DeliveryManagement.GroupedMember | src/hooks/useDeliveryManagement.tsx:218-234 | a lead is filed under a city and neighbourhood exactly when it is in the list and they are its own |
| DeliveryManagement.GroupedCovers | src/hooks/useDeliveryManagement.tsx:218-234 | every lead of the list is filed somewhere |
| DeliveryManagement.RegroupCity | src/hooks/useDeliveryManagement.tsx:218-234 | regrouping one city's part of the route gives back its sections |
| DeliveryManagement.GroupedProximityIsRoute | src/hooks/useDeliveryManagement.tsx:218-234 | grouping the proximity order for display gives back the route exactly |
| DeliveryManagement.SortLeads | src/hooks/useDeliveryManagement.tsx:80-90 | "proximity" returns the route and leaves the rows alone; "city" and anything else sort the rows in place and return them |
| Pedidos.RemoveAll | src/pages/Pedidos.tsx:60 | unticking removes every occurrence of the id and keeps every other id as often as before |
| Pedidos.RemoveAllAppend | src/pages/Pedidos.tsx:60 | removing from two runs removes from each, keeping their order |
| Pedidos.SelectedData | src/pages/Pedidos.tsx:72-74 | a lead is printed as often as it occurs in the list when its id is selected, and never otherwise |
| Pedidos.SelectedDataAppend | src/pages/Pedidos.tsx:72-74 | the selected leads keep list order |
| Pedidos.SelectedDataSetOnly | src/pages/Pedidos.tsx:72-74 | only which ids are selected matters, not their order or repetition |
| Pedidos.PaidAndDelivered | src/pages/Pedidos.tsx:42-48 | the 'paid' button marks the lead paid and delivered, both dated now, and sends no notes |
| Pedidos.CityEntries | src/pages/Pedidos.tsx:99-101 | one entry per neighbourhood of a city, each with the city's name |
| Pedidos.NumberSections | src/pages/Pedidos.tsx:96-116 | the sections are the grouping's (city, neighbourhood) entries numbered 1, 2, 3, ... in order |
| Pedidos.EntriesFlatten | src/pages/Pedidos.tsx:99-101 | reading the sections in order reads the grouped leads city after city |
| Pedidos.RouteNumbersFollowSort | src/pages/Pedidos.tsx:96-116 | following the route numbers visits the leads exactly in the order of the proximity sort |
| Pedidos.OrdersPage.constructor | src/pages/Pedidos.tsx:15-30 | the page starts with no selection, no dialog and nothing sent |
| Pedidos.OrdersPage.HandleStatusUpdate | src/pages/Pedidos.tsx:32-36 | the update is sent once, then the dialog closes and forgets the lead |
| Pedidos.OrdersPage.HandleCardAction | src/pages/Pedidos.tsx:38-53 | 'paid' sends the paid-and-delivered update; 'details' and 'unpaid' open the dialog on the lead |
| Pedidos.OrdersPage.HandleSelectLead | src/pages/Pedidos.tsx:56-62 | ticking appends the id, even a second time; unticking removes every occurrence |
| Pedidos.OrdersPage.HandleSelectAll | src/pages/Pedidos.tsx:64-70 | a selection as long as the list is cleared, any other becomes every lead's id in list order |
| Pedidos.OrdersPage.HandlePrint | src/pages/Pedidos.tsx:76-78 | the selection is emptied and nothing else changes |
| Pedidos.OrdersPage.RenderContent | src/pages/Pedidos.tsx:80-139 | a spinner while loading, the notice for no leads, numbered sections in proximity mode, the plain list otherwise |
| Pedidos.SelectAllThenUntick | src/pages/Pedidos.tsx:56-74 | selecting all then unticking one id prints every other lead and not that one |
| StatusUpdateModal.OrElse | src/components/delivery/StatusUpdateModal.tsx:41-44 | a non-empty column is kept and an empty one takes the fallback |
| StatusUpdateModal.InitialEdits | src/components/delivery/StatusUpdateModal.tsx:39-46 | the dialog loads the lead's statuses, 'pending' when missing, and its notes |
| StatusUpdateModal.UpdateFor | src/components/delivery/StatusUpdateModal.tsx:48-67 | the four edited fields always, and a date exactly on a first transition into 'paid' or 'delivered' |
| StatusUpdateModal.ResaveAddsNoDate | src/components/delivery/StatusUpdateModal.tsx:39-67 | saving without edits sends the lead's own notes and never a date |
| StatusUpdateModal.FormatAddressParts | src/components/delivery/StatusUpdateModal.tsx:72-75 | every non-empty part appears in the text, which is empty only when all parts are |
| StatusUpdateModal.Dialog.constructor | src/components/delivery/StatusUpdateModal.tsx:34-37 | the four fields start empty |
| StatusUpdateModal.Dialog.LoadLead | src/components/delivery/StatusUpdateModal.tsx:39-46 | a new lead loads its values; no lead keeps the fields |
| StatusUpdateModal.Dialog.Edit | src/components/delivery/StatusUpdateModal.tsx:34-37 | an edit replaces the fields and keeps the lead |
| StatusUpdateModal.Dialog.HandleUpdate | src/components/delivery/StatusUpdateModal.tsx:48-67 | nothing without a lead, otherwise one call with the lead's id and the update built from the edits |
| DeliveryFilters.UpdateFilter | src/components/delivery/DeliveryFilters.tsx:21-26 | the key is set to the value and every other key is kept |
| DeliveryFilters.FiltersExtensional | src/components/delivery/DeliveryFilters.tsx:9-15 | two filter records that agree on every key are equal |
| DeliveryFilters.UpdateSameValue | src/components/delivery/DeliveryFilters.tsx:21-26 | writing a key back with its own value changes nothing |
| DeliveryFilters.GetActiveFiltersCount | src/components/delivery/DeliveryFilters.tsx:38-46 | the counter equals the number of facets that differ from their default |
| DeliveryFilters.NoActiveIffDefault | src/components/delivery/DeliveryFilters.tsx:28-46 | the count is 0 exactly for the record that clearing yields |
| DeliveryFilters.DateRangeCountsOnce | src/components/delivery/DeliveryFilters.tsx:43 | a date range counts once whether one end or both are set |
| DeliveryFilters.SortCountsUnlessRecent | src/components/delivery/DeliveryFilters.tsx:44 | sorting by 'recent' is not counted; any other mode is |
| DeliveryFilters.GetSortIcon | src/components/delivery/DeliveryFilters.tsx:48-54 | a pin for proximity, a building for city, a calendar for anything else |
| ThermalPrint.FormatAddress | src/hooks/useThermalPrint.tsx:7-12 | street and number joined by ', ', district and city by ' - ', and the CEP line only with a CEP |
| ThermalPrint.FormatAddressLines | src/hooks/useThermalPrint.tsx:7-12 | each line shows each non-empty value it is built from, and is blank only when all are empty |
| ThermalPrint.PairLine | src/hooks/useThermalPrint.tsx:8-9 | two values joined after dropping the empty ones show each non-empty one |
| ThermalPrint.StatusLabel | src/hooks/useThermalPrint.tsx:18-26 | the four known statuses get their label, and 'Pendente' is shown exactly for any other value |
| ThermalPrint.LabelOf | src/hooks/useThermalPrint.tsx:29-61 | a missing name, phone, product or price reads 'N/A'; the address and both statuses come from their formatters |
| ThermalPrint.Labels | src/hooks/useThermalPrint.tsx:29-62 | one label per lead, in list order |
| ThermalPrint.LabelsAppend | src/hooks/useThermalPrint.tsx:29-62 | printing two batches gives the labels of the whole list |
| ThermalPrint.PrintLabels | src/hooks/useThermalPrint.tsx:183-225 | an error and no window for no leads or a blocked pop-up; otherwise every label goes to the window and the toast is not an error |
| TrackingTypes.FieldOr | src/components/steps/SchedulingStep.tsx:43-44 | a present field reads as its value, a missing one as '' |
| UrlParams.Get | src/utils/tracking.ts:16-28 | a name reads as a value exactly when the query has it, the first value under it |
| UrlParams.Set | src/utils/tracking.ts:31-43 | after setting a name it reads the new value and every other name reads as before |
| UrlParams.SetAbsentAppends | src/utils/tracking.ts:43-57 | setting a name the query lacks appends one pair |
| Tracking.MergeMissingGet | src/utils/tracking.ts:41-59 | in a merge a name already present keeps its value and a missing, unskipped name takes its first value from the other list |
| Tracking.MergeInto | src/utils/tracking.ts:41-59 | the `forEach` loop performs the merge of missing names |
| Tracking.GetAllUrlParams | src/utils/tracking.ts:10-63 | the method returns the query, then the `u` URL's parameters, then the hash's, merged |
| Tracking.UrlParamsPrecedence | src/utils/tracking.ts:10-63 | the `u` URL and the hash never overwrite a query parameter, except that a truthy `fbclid` in the `u` URL is always set, with facebook/social when `utm_source` is falsy |
| Tracking.FacebookStageGet | src/utils/tracking.ts:28-38 | how each name reads after the Facebook click-id step |
| Tracking.AllUrlParamsGet | src/utils/tracking.ts:10-63 | how each name reads after the whole merge, stage by stage |
| Tracking.DetectTrafficSource | src/utils/tracking.ts:66-118 | a Facebook marker in the URL means facebook/paid_social, and the social flag is set exactly for a social network |
| Tracking.EmptyReferrerIsDirect | src/utils/tracking.ts:68-115 | with no Facebook or Instagram marker in the URL or user agent, an empty referrer means direct traffic |
| Tracking.FirstUsable | src/utils/tracking.ts:134-142 | '' exactly when no alias has a usable value, otherwise the value of some alias |
| Tracking.GetParamValue | src/utils/tracking.ts:134-142 | the loop returns the first usable value among the aliases |
| Tracking.ReadUtmParams | src/utils/tracking.ts:125-152 | the record read from the parameters, five alias lookups and the two raw Facebook fields |
| Tracking.HasEmptyUTMsIsAnyUtmSource | src/utils/tracking.ts:154-155 | the empty-UTM flag is set exactly when 'utm_source=' occurs in the query |
| Tracking.Fallback | src/utils/tracking.ts:183-203 | the fallback fills only an empty source or medium, keeps every other field, and sets the Facebook source from detection; a valid record with no empty-UTM flag is unchanged |
| Tracking.FbclidBranchUnreachable | src/utils/tracking.ts:183-191 | the fbclid-only branch never runs, because a non-empty `fbclid` already makes the record valid |
| Tracking.StoredPrecedence | src/utils/tracking.ts:205-213 | stored UTMs replace the result exactly when nothing valid came from the URL or the redirect data |
| Tracking.FallbackKeepsExplicitUtms | src/utils/tracking.ts:158-203 | a source or medium from the URL or redirect data survives the fallback |
| Tracking.ConsumeKeepsStoredUtms | src/utils/tracking.ts:461-474 | consuming the redirect data leaves the stored UTMs alone |
| Tracking.CheckStoredFacebookData | src/utils/tracking.ts:461-474 | the redirect data is returned and removed; nothing else changes |
| Tracking.ExtractUTMParams | src/utils/tracking.ts:121-230 | the result is the extracted record for the session contents, and the session keeps the result exactly when it was valid |
| Tracking.ProcessFacebookRedirect | src/utils/tracking.ts:421-458 | a redirect happens exactly when a `u` URL decodes, and the redirect data is stored exactly when it carries a truthy `fbclid` |
| Tracking.RedirectData | src/utils/tracking.ts:437-443 | the stored redirect data is facebook/paid_social with the click id and a non-empty campaign |
| Tracking.RedirectDataWins | src/utils/tracking.ts:158-213 | on landing, redirect data with a click id yields facebook/paid_social and that click id |
| Tracking.CreateTrackingData | src/utils/tracking.ts:244-256 | the tracking record is the extracted UTMs plus the arrival details |
| Tracking.SaveTrackingData | src/utils/tracking.ts:266-274 | saving then reading gives back the same tracking record |
| Tracking.SaveFunnelEvents | src/utils/tracking.ts:277-285 | saving then reading gives back the same events |
| Tracking.EventFor | src/utils/tracking.ts:298-318 | the event carries its name, its step, the tracking UTMs and the time since the step began, 0 without a start |
| Tracking.TrackAppendsOne | src/utils/tracking.ts:288-326 | without tracking data nothing changes; otherwise the old events are kept in order, one new event follows them, and the step clock reads now |
| Tracking.TrackFunnelEvent | src/utils/tracking.ts:288-326 | the method leaves the storage that the tracked event describes |
| Tracking.StartStepTiming | src/utils/tracking.ts:329-331 | the step start becomes now and nothing else changes |
| Tracking.JsRem | src/utils/tracking.ts:340 | JavaScript's remainder takes the sign of the dividend |
| Tracking.SessionTimeShape | src/utils/tracking.ts:334-343 | for a clock that has not gone backwards, seconds are 0..59 and minutes are shown exactly from one full minute |
| Tracking.InitializeSessionTiming | src/utils/tracking.ts:346-351 | an existing session start is kept; otherwise it is set to now |
| Tracking.ClearTrackingData | src/utils/tracking.ts:353-359 | the four tracking keys and the stored UTMs are removed, nothing else |
| Tracking.SaveFormDataBackup | src/utils/tracking.ts:361-368 | saving then reading gives back the same form data |
| Tracking.ClearFormDataBackup | src/utils/tracking.ts:370-372 | the backup is removed, nothing else |
| Tracking.CountStepEvents | src/utils/tracking.ts:398 | the completed-step count never exceeds the number of events |
| Tracking.CountStepEventsAppend | src/utils/tracking.ts:398 | counting two runs of events adds their counts |
| Tracking.FormatTrackingForSubmission | src/utils/tracking.ts:387-404 | a submission exactly when tracking data exists, carrying the stored events and the price as conversion value |
| Tracking.BackNavigationCountsAsStep | src/utils/tracking.ts:398 | 'step_back' and 'step_edit' events are counted as completed steps |
| UtmTracker.DigitSuffixLen | src/utils/utm-tracker.ts:29-32 | the longest all-digit suffix |
| UtmTracker.ExtractIdCharacterised | src/utils/utm-tracker.ts:29-33 | an id is extracted exactly when the text ends in '_' and that non-empty run of digits |
| UtmTracker.ExtractIdNone | src/utils/utm-tracker.ts:29-33 | nothing is extracted exactly when there is no text or no such ending |
| UtmTracker.ExtractFacebookIds | src/utils/utm-tracker.ts:28-45 | an id embedded in the campaign, content or term wins, and the explicit parameter is used only when none is embedded |
| UtmTracker.ExtractUTMFromURL | src/utils/utm-tracker.ts:48-70 | the raw UTM and click-id values pass through, and only the three Facebook ids may come from embedded names |
| UtmTracker.UrlRecordPresentIff | src/utils/utm-tracker.ts:115-124 | the URL record counts exactly when any of the nine parameters is present, even empty |
| UtmTracker.GetOrCreateSessionId | src/utils/utm-tracker.ts:87-96 | an existing id is returned unchanged; otherwise a new 'session_' id is stored and returned |
| UtmTracker.StoreUTMData | src/utils/utm-tracker.ts:99-102 | the record and the capture time are stored, and reading gives back the record |
| UtmTracker.ClearUTMData | src/utils/utm-tracker.ts:135-138 | the record and its capture time are removed, nothing else |
| UtmTracker.GetCurrentUTMData | src/utils/utm-tracker.ts:122-132 | a URL record that counts is stored and returned; otherwise the stored record or `{}` is returned and nothing is written |
| UtmTracker.HasUTMDataIffCurrentHasField | src/utils/utm-tracker.ts:111-132 | `hasUTMData` answers exactly whether `getCurrentUTMData` would return a record with some field set |
| UtmTracker.StoredThenCurrent | src/utils/utm-tracker.ts:99-132 | after a URL record is stored, reading the store gives it back |
| UseUtmTracking.Project | src/hooks/useUTMTracking.tsx:302-320 | the projection keeps exactly the listed fields, each as its value or '' |
| UseUtmTracking.ValidateFormData | src/hooks/useUTMTracking.tsx:296-327 | `{}` for missing data, the step's fields with '' defaults at steps 1 to 4, and the data unchanged at any other step |
| UseUtmTracking.ValidatedIffComplete | src/hooks/useUTMTracking.tsx:296-345 | the projected record passes validation exactly when the raw data has the step's required fields |
| UseUtmTracking.WizardScheduleNeverValid | src/hooks/useUTMTracking.tsx:317-340 | data without 'dataAgendamento' and 'horarioAgendamento', as the wizard stores it, never passes step 4 |
| UseUtmTracking.GetDelay | src/hooks/useUTMTracking.tsx:119-124 | 300 ms at step 3, 200 at step 4, 250 at step 5, 100 otherwise |
| UseUtmTracking.EventType | src/hooks/useUTMTracking.tsx:106-114 | only steps 1 to 5 have an event type, and each starts with 'step_' |
| UseUtmTracking.AttemptTracking | src/hooks/useUTMTracking.tsx:132-160 | three attempts at an incomplete step 3 and one otherwise, then exactly one tracked event |
| UseUtmTracking.StepTracker.constructor | src/hooks/useUTMTracking.tsx:100-102 | the tracker starts at step 0, not tracking |
| UseUtmTracking.StepTracker.OnStep | src/hooks/useUTMTracking.tsx:104-172 | a changed step from 1 to 5 tracks one event and never records the step; a changed step beyond 5 is recorded; anything else changes nothing |
| UseUtmTracking.ContinuedData | src/hooks/useUTMTracking.tsx:63-68 | the stored record takes the URL's UTMs only when their source is non-empty and differs; the session id and arrival time are kept |
| UseUtmTracking.ContinuedDataIdempotent | src/hooks/useUTMTracking.tsx:63-68 | continuing again with the same URL changes nothing more |
| UseUtmTracking.UtmTrackingHook.constructor | src/hooks/useUTMTracking.tsx:18-20 | the hook starts uninitialised, with no record, not ready |
| UseUtmTracking.UtmTrackingHook.Initialize | src/hooks/useUTMTracking.tsx:22-74 | the mount effect runs once; a first visit creates the record, a continued session updates it as `ContinuedData` says |
| UseUtmTracking.FirstVisit | src/hooks/useUTMTracking.tsx:30-39 | a first visit saves the new record, keeps the events, tracks the page view and starts the step clock at now |
| UseUtmTracking.OtherKeysKept | src/hooks/useUTMTracking.tsx:34-38 | writing the session or step start leaves the record and the events as they were |
| UseUtmTracking.ContinueSession | src/hooks/useUTMTracking.tsx:58-69 | a continued session saves the record only when `ContinuedData` changed it |
| UseUtmTracking.SubmissionUtms | src/hooks/useUTMTracking.tsx:187-198 | the stored record's seven UTM fields, each '' without a record |
| UseUtmTracking.TrackSubmission | src/hooks/useUTMTracking.tsx:181-223 | a 'form_submit' event with the enriched form, then 'redirect_to_site' only with a redirect URL |
| UseUtmTracking.SubmissionEventCount | src/hooks/useUTMTracking.tsx:181-218 | with a record in place a submission adds one event, or two when it redirects, and the first carries the record's UTMs |
| UseUtmTracking.TrackStepBack | src/hooks/useUTMTracking.tsx:232-242 | a 'step_back' event at the step left, with the reason or 'user_back_navigation' |
| UseUtmTracking.TrackStepEdit | src/hooks/useUTMTracking.tsx:244-254 | a 'step_edit' event at the step left, with the field or 'unknown' |
| FormWizard.InitialFormDataShape | src/components/FormWizard.tsx:37-52 | the initial form has every text field '' and the box unticked |
| FormWizard.Merge | src/components/FormWizard.tsx:68-70 | exactly the supplied fields change, to the supplied values; all others are kept |
| FormWizard.MergeThen | src/components/FormWizard.tsx:68-70 | two updates in a row are one update in which the later values win |
| FormWizard.RunStaysInRange | src/components/FormWizard.tsx:72-82 | moving forward and back from a step in 1..4 never leaves 1..4 |
| FormWizard.ForwardReachesLast | src/components/FormWizard.tsx:72-76 | n forward moves reach step + n, stopping at the review step |
| FormWizard.RenderCurrentStep | src/components/FormWizard.tsx:115-157 | one screen per step 1..4 and nothing for any other step |
| FormWizard.Wizard.constructor | src/components/FormWizard.tsx:62-65 | the wizard starts at step 1 with the initial form, not submitting, not done |
| FormWizard.Wizard.UpdateFormData | src/components/FormWizard.tsx:68-70 | the form becomes the merge of the update and nothing else changes |
| FormWizard.Wizard.NextStep | src/components/FormWizard.tsx:72-76 | forward unless at the last step, staying in 1..4 |
| FormWizard.Wizard.PrevStep | src/components/FormWizard.tsx:78-82 | back unless at the first step, staying in 1..4 |
| FormWizard.Wizard.GoToStep | src/components/FormWizard.tsx:84-86 | any step number is taken as it is |
| FormWizard.Wizard.HandleSubmitStart | src/components/FormWizard.tsx:88-89 | the form is marked as submitting |
| FormWizard.Wizard.HandleSubmitSettle | src/components/FormWizard.tsx:95-106 | success unless the send was rejected, an error toast exactly when it was, and no longer submitting |
| FormWizard.Wizard.HandleNewForm | src/components/FormWizard.tsx:109-113 | back to the initial form at step 1, showing the first step |
| Cep.FormatCep | src/components/CEPValidationModal.tsx:39-42 | the digits, with '-' after the fifth when there are at least eight |
| Cep.FormatCepKeepsDigits | src/components/CEPValidationModal.tsx:39-42 | the mask adds and loses no digit |
| Cep.FormatCepIdempotent | src/components/CEPValidationModal.tsx:39-42 | masking a masked CEP changes nothing |
| Cep.EightDigitValue | src/components/CEPValidationModal.tsx:44-50 | eight digits read as the five-digit head times a thousand plus the three-digit tail |
| Cep.DivinopolisPrefix | src/components/CEPValidationModal.tsx:44-50 | an eight-digit CEP is in the Divinópolis range exactly when it starts with 3550 and then 0 to 7 |
| PurchaseMethodStep.GetCurrentCEPStatus | src/components/steps/PurchaseMethodStep.tsx:100-110 | a full CEP is reported as it is and valid exactly when in range; anything else is reported as no CEP, never valid |
| PurchaseMethodStep.CepStatusPrefix | src/components/steps/PurchaseMethodStep.tsx:100-110 | a valid status is exactly a CEP whose eight digits start 3550 and then 0 to 7 |
| PurchaseMethodStep.ValidatedPatch | src/components/steps/PurchaseMethodStep.tsx:74-82 | an accepted CEP is recorded with pay-on-delivery; a rejected one records nothing |
| PurchaseMethodStep.SiteOficialStoredAsCep | src/components/steps/PurchaseMethodStep.tsx:74-82 | the modal's site button makes the form hold pay-on-delivery with the CEP 'site-oficial' |
| PurchaseMethodStep.PurchaseMethod.constructor | src/components/steps/PurchaseMethodStep.tsx:28-31 | no dialog open and no verdict yet |
| PurchaseMethodStep.PurchaseMethod.HandleSelectMethod | src/components/steps/PurchaseMethodStep.tsx:41-72 | Sedex records the method and jumps to step 3; pay-on-delivery goes to step 2 with a CEP in range, logs and opens the redirect dialog out of range, and opens the CEP dialog without a full CEP |
| PurchaseMethodStep.PurchaseMethod.HandleCEPValidated | src/components/steps/PurchaseMethodStep.tsx:74-89 | the verdict is kept and the CEP dialog closes; accepted goes to step 2 with the patch, rejected opens the redirect dialog |
| PurchaseMethodStep.PurchaseMethod.HandleRedirectToSite | src/components/steps/PurchaseMethodStep.tsx:91-98 | one redirect event at step 1 and the dialog closes |
| CepValidationModal.Verdict | src/components/CEPValidationModal.tsx:64-127 | no verdict for an unknown CEP; the city or range test when the service answers; the range test alone when the lookup fails |
| CepValidationModal.ResultAgreesWithVerdict | src/components/CEPValidationModal.tsx:74-118 | the shown result agrees with the verdict, an unknown CEP is shown as rejected, and the message opens with a check mark exactly when accepted |
| CepValidationModal.RangeOrCityAccepted | src/components/CEPValidationModal.tsx:86-109 | an in-range CEP is accepted whenever the service answers, a Divinópolis address even out of range, and an unknown CEP never |
| CepValidationModal.AfterValidateEventCount | src/components/CEPValidationModal.tsx:64-124 | with tracking data a lookup logs two events when it refuses and one when it accepts |
| CepValidationModal.CepModal.constructor | src/components/CEPValidationModal.tsx:30-37 | the field starts with the given CEP, no spinner and no result |
| CepValidationModal.CepModal.SetCepInput | src/components/CEPValidationModal.tsx:39-42 | typing stores the masked value, with the same digits |
| CepValidationModal.CepModal.ValidateCEP | src/components/CEPValidationModal.tsx:52-127 | without eight digits only a toast; otherwise the request, the result for the answer, the outcome and the callback |
| CepValidationModal.CepModal.HandleRedirectToSite | src/components/CEPValidationModal.tsx:129-139 | one redirect event, then the pair ('site-oficial', true) to the caller |
| CepValidationModal.CepModal.HandleTryAgain | src/components/CEPValidationModal.tsx:141-144 | an empty field and no result |
| PersonalDataStep.FormatPhone | src/components/steps/PersonalDataStep.tsx:36-48 | the digits masked as '(xx) xxxxx-xxxx' as far as they go, and the text cut to 15 characters past eleven digits |
| PersonalDataStep.FormatPhoneLength | src/components/steps/PersonalDataStep.tsx:36-48 | the mask's length is the digits plus the punctuation around each group |
| PersonalDataStep.FormatPhoneValidIffEleven | src/components/steps/PersonalDataStep.tsx:31-48 | up to eleven digits, the masked phone passes the format check exactly with eleven digits |
| PersonalDataStep.PhoneDigits | src/components/steps/PersonalDataStep.tsx:31-34 | the digits of a phone in the format are its three groups |
| PersonalDataStep.FormatPhoneKeepsValid | src/components/steps/PersonalDataStep.tsx:31-48 | masking a phone already in the format leaves it as it is |
| PersonalDataStep.EmailFromParts | src/components/steps/PersonalDataStep.tsx:26-29 | any three non-empty parts without spaces or '@' make a valid `local@host.tld` |
| PersonalDataStep.ValidEmailShape | src/components/steps/PersonalDataStep.tsx:26-29 | a valid address has no white space and an '@' that is neither first nor last |
| PersonalDataStep.AddressPatch | src/components/steps/PersonalDataStep.tsx:73-77 | a found CEP fills street, district and city, '' for a missing one |
| PersonalDataStep.CepChange | src/components/steps/PersonalDataStep.tsx:186-192 | typing stores the masked CEP, and a lookup follows exactly with eight digits |
| PersonalDataStep.Required | src/components/steps/PersonalDataStep.tsx:97-99 | a blank value gets its message and any other value none |
| PersonalDataStep.TelefoneError | src/components/steps/PersonalDataStep.tsx:101-105 | 'required' for a blank phone, the format message for a phone out of format, none otherwise |
| PersonalDataStep.EmailError | src/components/steps/PersonalDataStep.tsx:107-111 | 'required' for a blank e-mail, 'invalid' for one out of format, none otherwise |
| PersonalDataStep.PersonalData.constructor | src/components/steps/PersonalDataStep.tsx:22-23 | no spinner and no errors |
| PersonalDataStep.PersonalData.ValidateForm | src/components/steps/PersonalDataStep.tsx:94-123 | one error per blank required field or malformed phone or e-mail, and it passes exactly with no error |
| PersonalDataStep.PersonalData.HandleNext | src/components/steps/PersonalDataStep.tsx:125-129 | the wizard moves on only with no error, so with a name and a well-formed phone |
| PersonalDataStep.PersonalData.HandleCepSearch | src/components/steps/PersonalDataStep.tsx:55-92 | nothing without eight digits; otherwise the answer fills the address or raises a toast, and the spinner is off |
| SchedulingStep.WithoutDay | src/components/steps/SchedulingStep.tsx:57 | the days kept are exactly those whose id is not today's |
| SchedulingStep.AvailableDaysByWeekday | src/components/steps/SchedulingStep.tsx:15-57 | on Sunday all six days are offered, otherwise the five others in order, never today |
| SchedulingStep.Scheduling.constructor | src/components/steps/SchedulingStep.tsx:43-45 | the choices start from the form, with no errors |
| SchedulingStep.Scheduling.HandleDaySelect | src/components/steps/SchedulingStep.tsx:59-63 | the day is chosen and recorded, its error cleared, the time kept |
| SchedulingStep.Scheduling.HandleTimeSelect | src/components/steps/SchedulingStep.tsx:65-69 | the time is chosen and recorded, its error cleared, the day kept |
| SchedulingStep.Scheduling.ValidateForm | src/components/steps/SchedulingStep.tsx:71-84 | an error for a missing day and for a missing time; it passes exactly with both |
| SchedulingStep.Scheduling.HandleNext | src/components/steps/SchedulingStep.tsx:86-90 | the wizard moves on exactly when both are chosen |
| SchedulingStep.TodayStillAccepted | src/components/steps/SchedulingStep.tsx:43-90 | a stored day equal to today's, so not offered, still passes |
| TreatmentStep.Find | src/components/steps/TreatmentStep.tsx:68 | the first kit with the id, and none exactly when no kit has it |
| TreatmentStep.TreatmentTable | src/components/steps/TreatmentStep.tsx:15-64 | no two kits share an id, and exactly the default kit is popular |
| TreatmentStep.FindEachTreatment | src/components/steps/TreatmentStep.tsx:15-68 | every id on the table finds its own kit |
| TreatmentStep.TreatmentChoice.constructor | src/components/steps/TreatmentStep.tsx:64-65 | the choice starts from the form's kit, or the popular kit when there is none |
| TreatmentStep.TreatmentChoice.HandleTreatmentSelect | src/components/steps/TreatmentStep.tsx:67-77 | a known kit is chosen and recorded with its price text, an unknown id changes nothing |
| TreatmentStep.TreatmentChoice.HandleNext | src/components/steps/TreatmentStep.tsx:79-85 | the wizard moves on exactly with a choice, otherwise the error is shown |
| TreatmentStep.AdvanceWithoutChoice | src/components/steps/TreatmentStep.tsx:64-85 | the preselected kit lets the wizard move on without a kit in the form |
| AnalyticsRows.Conversions | src/hooks/useCampaignAnalytics.tsx:95 | the leads that accepted the final terms are at most all the leads |
| AnalyticsRows.RatesComplement | src/hooks/useFunnelAnalytics.tsx:96-97 | against a non-zero count completion and drop-off rates add up to 100, against zero both are 0, and a part no larger than the whole gives rates between 0 and 100 |
| FunnelAnalytics.Completed | src/hooks/useFunnelAnalytics.tsx:95 | the leads that completed at least `n` steps are at most all the leads |
| FunnelAnalytics.TallyEvents | src/hooks/useFunnelAnalytics.tsx:64-88 | the five step counters hold, per step, the events at that step and the time of those that carry one; events at other steps are skipped |
| FunnelAnalytics.FinishSteps | src/hooks/useFunnelAnalytics.tsx:91-109 | each step's completions and rates are taken against the previous step's completions, all leads for the first step |
| FunnelAnalytics.CountCompleted | src/hooks/useFunnelAnalytics.tsx:95 | the loop counts exactly the leads with at least `n` completed steps |
| FunnelAnalytics.CompletedMonotone | src/hooks/useFunnelAnalytics.tsx:95 | asking for more steps never yields more completed leads |
| FunnelAnalytics.EntriesPartition | src/hooks/useFunnelAnalytics.tsx:77-88 | the five steps' entries add up to the events whose step is one of the five |
| FunnelAnalytics.OverallFunnelShape | src/hooks/useFunnelAnalytics.tsx:91-109 | step n's completions are the leads with at least n completed steps, never more than the step before; its rates lie between 0 and 100 and add up to 100 unless the base is 0 |
| FunnelAnalytics.OfModality | src/hooks/useFunnelAnalytics.tsx:134-135 | the leads of one purchase method are exactly the leads whose method (or 'unknown') is it |
| FunnelAnalytics.CountLeadSteps | src/hooks/useFunnelAnalytics.tsx:142-149 | one more lead adds a completion to each step it reached and sets every step's entries and rate to the new lead count |
| FunnelAnalytics.TallyModalities | src/hooks/useFunnelAnalytics.tsx:112-151 | each of the two purchase methods' counters reflects exactly its own leads; other leads are ignored |
| FunnelAnalytics.TallyLead | src/hooks/useFunnelAnalytics.tsx:133-151 | one pass of the `forEach` keeps both methods' counters exact: the lead counts in the funnel of its own method and in no other |
| FunnelAnalytics.AddLead | src/hooks/useFunnelAnalytics.tsx:136-149 | after one more lead of the method, the counters are those of the method's leads so far including it |
| FunnelAnalytics.OtherLeadIgnored | src/hooks/useFunnelAnalytics.tsx:135 | a lead whose method is not this one leaves this method's counters exact |
| FunnelAnalytics.ModalityFunnelShape | src/hooks/useFunnelAnalytics.tsx:133-157 | per purchase method: conversions at most its leads, completions never grow step to step, rates between 0 and 100, and the two methods together at most all leads |
| FunnelAnalytics.TwoModalitiesBound | src/hooks/useFunnelAnalytics.tsx:113-135 | the two methods' leads are at most all the leads |
| FunnelAnalytics.SiteSedexLeadsIgnored | src/hooks/useFunnelAnalytics.tsx:113 | a lead recorded as 'site-sedex' is counted in neither method's funnel |
| FunnelAnalytics.FunnelAnalyticsReport | src/hooks/useFunnelAnalytics.tsx:54-162 | the overall funnel and one funnel per purchase method, each figure tied to the leads and events it is computed from |
| CampaignAnalytics.Members | src/hooks/useCampaignAnalytics.tsx:66-84 | a group is a subsequence of the rows |
| CampaignAnalytics.Keys | src/hooks/useCampaignAnalytics.tsx:66-79 | the group keys are distinct and each has at least one row |
| CampaignAnalytics.MembersExactly | src/hooks/useCampaignAnalytics.tsx:66-84 | a group holds exactly the rows with its key |
| CampaignAnalytics.KeysFirstSeen | src/hooks/useCampaignAnalytics.tsx:66-79 | the group keys are the rows' keys, each once, in the order they first occur |
| CampaignAnalytics.KeysExactly | src/hooks/useCampaignAnalytics.tsx:69-79 | a key is present exactly when some row has it |
| CampaignAnalytics.AddRow | src/hooks/useCampaignAnalytics.tsx:67-84 | one more row creates its group if new and updates only its own group's counters |
| CampaignAnalytics.TallyGroups | src/hooks/useCampaignAnalytics.tsx:66-84 | after the loop every key's counters reflect exactly the rows with that key, keys in first-seen order |
| CampaignAnalytics.GroupSizesTotal | src/hooks/useCampaignAnalytics.tsx:66-84 | every row is in exactly one group: the group sizes add up to the number of rows |
| CampaignAnalytics.ProcessCampaigns | src/hooks/useCampaignAnalytics.tsx:65-90 | one campaign row per key in first-seen order, its UTM values from the key's first lead and its figures from all its leads |
| CampaignAnalytics.SumTotalLeadsSizes | src/hooks/useCampaignAnalytics.tsx:81 | the campaign rows' lead counts add up to their groups' sizes |
| CampaignAnalytics.KeysCoverRows | src/hooks/useCampaignAnalytics.tsx:68-79 | every lead's key has its group |
| CampaignAnalytics.CampaignTotals | src/hooks/useCampaignAnalytics.tsx:65-90 | the campaign rows hold every lead exactly once, each with at least one lead, no more conversions than leads and a rate between 0 and 100 |
| CampaignAnalytics.KeyCollision | src/hooks/useCampaignAnalytics.tsx:68 | two leads with different UTM source and campaign can share a key and are then merged into one row shown with the first lead's values |
| CampaignAnalytics.MethodCount | src/hooks/useCampaignAnalytics.tsx:102-103 | the leads of a purchase method are at most all the leads |
| CampaignAnalytics.MethodCountsDisjoint | src/hooks/useCampaignAnalytics.tsx:102-103 | two different purchase methods count disjoint leads |
| CampaignAnalytics.KpiBounds | src/hooks/useCampaignAnalytics.tsx:92-104 | conversions at most the leads, the two methods at most the leads, a rate between 0 and 100, and rate and average 0 with no rows |
| CampaignAnalytics.ProcessTimeSeries | src/hooks/useCampaignAnalytics.tsx:106-121 | the series is the per-day entries sorted by date |
| CampaignAnalytics.SumLeadsSizes | src/hooks/useCampaignAnalytics.tsx:114 | the day entries' lead counts add up to their days' group sizes |
| CampaignAnalytics.DistinctDatesOnce | src/hooks/useCampaignAnalytics.tsx:107-116 | in entries with distinct dates each entry occurs at most once |
| CampaignAnalytics.SameDateSameEntry | src/hooks/useCampaignAnalytics.tsx:107-116 | in entries with distinct dates two entries with the same date are the same entry |
| CampaignAnalytics.DateCmpConsistent | src/hooks/useCampaignAnalytics.tsx:121 | the date comparison is total and transitive, so the sort is well defined |
| CampaignAnalytics.SeriesAscending | src/hooks/useCampaignAnalytics.tsx:118-121 | the sorted series lists its days in strictly ascending order |
| CampaignAnalytics.SeriesEntries | src/hooks/useCampaignAnalytics.tsx:107-121 | the sorted series holds exactly one entry for each day that has leads |
| CampaignAnalytics.TimeSeriesShape | src/hooks/useCampaignAnalytics.tsx:106-121 | one entry per day with leads, ascending, each with at least one lead and no more conversions than leads, leads adding up to the rows |
| CampaignAnalytics.CampaignAnalyticsReport | src/hooks/useCampaignAnalytics.tsx:65-127 | the report's campaigns, KPIs and time series are those of the three query results |
| Tally.Occurrences | src/hooks/useRealtimeTracking.tsx:110 | a key's count is at most the length and is 0 exactly when the key is absent |
| Tally.FirstSeen | src/hooks/useRealtimeTracking.tsx:84-85 | a JavaScript `Map`'s keys are distinct and are exactly the keys set |
| Tally.IndexOf | src/hooks/useRealtimeTracking.tsx:110 | the lookup finds the first position of a present key and reports an absent one |
| Tally.CountsFor | src/hooks/useRealtimeTracking.tsx:110 | the counting map holds each key once, in first-seen order, with its number of occurrences |
| Tally.CountsUnique | src/hooks/useRealtimeTracking.tsx:110 | a counting map is determined by what it counts |
| Tally.Bump | src/hooks/useRealtimeTracking.tsx:110 | `set(k, (get(k) \|\| 0) + 1)` keeps the map the counting map of the keys seen |
| Tally.GetOccurrences | src/hooks/useRealtimeTracking.tsx:110 | a lookup answers the key's number of occurrences, 0 when missing |
| Tally.CountsTotal | src/hooks/useRealtimeTracking.tsx:106-115 | the counts add up to the number of keys counted |
| Tally.DistinctCard | src/hooks/useRealtimeTracking.tsx:86 | a sequence without repeats has as many elements as its set |
| RealtimeTracking.OnlineModality | src/hooks/useRealtimeTracking.tsx:113 | the method is never empty and is the lead's when it has one |
| RealtimeTracking.LeadIds | src/hooks/useRealtimeTracking.tsx:93-94 | the ids collected are non-empty and include every event's lead id |
| RealtimeTracking.LatestByLeadKeys | src/hooks/useRealtimeTracking.tsx:90-97 | the map holds one entry per lead id, in first-occurrence order |
| RealtimeTracking.LatestIsFirstMax | src/hooks/useRealtimeTracking.tsx:94-96 | each lead's kept event is one of its events, as late as any other, and strictly later than every earlier one |
| RealtimeTracking.LastActivityIsMax | src/hooks/useRealtimeTracking.tsx:100-102 | there is a last activity exactly when there are events, and it is the latest event time |
| RealtimeTracking.StepKeys | src/hooks/useRealtimeTracking.tsx:109-111 | the step tally never counts step 0 |
| RealtimeTracking.ModalityKeys | src/hooks/useRealtimeTracking.tsx:113-114 | every kept event is counted under a non-empty method |
| RealtimeTracking.Recent | src/hooks/useRealtimeTracking.tsx:118-126 | recent activity has at most ten entries, all when there are fewer |
| RealtimeTracking.ScanEvents | src/hooks/useRealtimeTracking.tsx:89-103 | the first pass yields the latest event per lead and the last activity |
| RealtimeTracking.ObserveEvent | src/hooks/useRealtimeTracking.tsx:93-97 | one event updates the map as reading it at the end of the list does: a new lead is appended, a known lead's event is replaced only by a strictly later one, an event without a lead changes nothing |
| RealtimeTracking.TallyLeads | src/hooks/useRealtimeTracking.tsx:105-115 | the second pass yields one online user per lead and the step and method tallies of the kept events |
| RealtimeTracking.TallyLeadsSound | src/hooks/useRealtimeTracking.tsx:105-115 | the tallies are the counting maps of the kept events' steps and methods |
| RealtimeTracking.ProcessEvents | src/hooks/useRealtimeTracking.tsx:83-136 | processing the window's events publishes its snapshot |
| RealtimeTracking.SnapshotShape | src/hooks/useRealtimeTracking.tsx:83-136 | one user per lead (none online from the fallback window), method counts adding up to the leads, step counts at most the leads, no step 0, and the first ten leads as recent activity |
| RealtimeTracking.StepTallyCounts | src/hooks/useRealtimeTracking.tsx:109-111 | a step's tally is the number of leads whose kept event is at that step |
| RealtimeTracking.RealtimeTracker.constructor | src/hooks/useRealtimeTracking.tsx:32-41 | the hook starts empty and disconnected |
| RealtimeTracking.RealtimeTracker.FetchCurrentActivity | src/hooks/useRealtimeTracking.tsx:43-141 | an error keeps the old data; otherwise the recent window is published, or the fallback window when the recent one is empty |
| RealtimeTracking.RealtimeTracker.OnSubscriptionStatus | src/hooks/useRealtimeTracking.tsx:162-164 | connected exactly while subscribed, the data untouched |
| FunnelStepsLive.GetStepUsers | src/components/dashboard/FunnelStepsLive.tsx:18-20 | 0 for a step the map does not hold, otherwise one of its counts |
| FunnelStepsLive.StepUsersOfSnapshot | src/components/dashboard/FunnelStepsLive.tsx:18-20 | fed the tracking hook's snapshot, a step's count is the number of leads whose latest event is at that step |
| FunnelStepsLive.GetStepActivity | src/components/dashboard/FunnelStepsLive.tsx:22-28 | inactive exactly with no leads, high exactly with three or more, medium with one or two, never low |
| FunnelStepsLive.ActivityStyles | src/components/dashboard/FunnelStepsLive.tsx:30-46 | colour and text agree; unnamed levels are grey and 'Inativo'; a step never shows the blue of 'low' |
| FunnelStepsLive.MaxUsers | src/components/dashboard/FunnelStepsLive.tsx:48 | at least 1, no smaller than any count, and either 1 or one of the counts |
| FunnelStepsLive.ProgressBounded | src/components/dashboard/FunnelStepsLive.tsx:62-64 | each bar lies between 0 and 100, the busiest step's is full and an inactive step's empty |
| FunnelStepsLive.ShareBounded | src/components/dashboard/FunnelStepsLive.tsx:64 | a share of at most the whole lies between 0 and 100 and is 100 for the whole |
| RealtimeActivityCard.ElapsedSeconds | src/components/dashboard/RealtimeActivityCard.tsx:12 | the whole seconds elapsed, rounded down |
| RealtimeActivityCard.TimeAgoUnits | src/components/dashboard/RealtimeActivityCard.tsx:9-21 | seconds under a minute, whole minutes 1 to 59 under an hour, whole hours from an hour on |
| RealtimeActivityCard.StepNamesAgree | src/components/dashboard/RealtimeActivityCard.tsx:23-32 | steps 1 to 5 are named as in the live funnel card, any other as "Etapa n" |
| RealtimeActivityCard.ModalityDisplayCases | src/components/dashboard/RealtimeActivityCard.tsx:34-38 | the two wizard methods get display names, every other value is shown as stored |
| RealtimeActivityCard.FallbackBadgeFirst | src/components/dashboard/RealtimeActivityCard.tsx:46-59 | fallback data is announced whatever the connection; otherwise live exactly when connected |
| RealtimeActivityCard.StepRowsAscending | src/components/dashboard/RealtimeActivityCard.tsx:91-93 | the per-step rows are a permutation of the map's entries in ascending step order |
| UtmTable.FloorSplit | src/components/dashboard/UTMTable.tsx:12-16 | for a time of at least 0, minutes and remaining seconds are the floor's quotient and remainder by 60 |
| UtmTable.FormatTimeShape | src/components/dashboard/UTMTable.tsx:12-16 | the text is whole minutes, a colon and the remaining seconds (under 60) in two digits |
| UtmTable.BadgeTiers | src/components/dashboard/UTMTable.tsx:18-23 | the four badges are the half-open rate bands from 20, 10, 5 and below |
| UtmTable.BadgeMonotone | src/components/dashboard/UTMTable.tsx:18-23 | a higher rate never gets a worse badge |
| UtmTable.Rows | src/components/dashboard/UTMTable.tsx:47-82 | one table row per campaign, in order |

## Left out

- Supabase queries, updates and the realtime channel, and the ViaCEP lookups, are network calls: their results are inputs (rows, an API response, an error flag), and the `fetchLeads`/`updateLeadStatus` requests are represented by the update record a handler produces.
- `window.location`, `document.referrer`, `navigator.userAgent`, `Date.now` and `Math.random` are parameters; `localStorage` and `sessionStorage` are the two maps of `Storage.Browser`.
- URL and query-string parsing (`URL`, `URLSearchParams`, `decodeURIComponent`) is taken as done: a query is an ordered list of key/value pairs, and a URL that fails to parse is treated as having no parameters.
- `JSON.parse`/`JSON.stringify` become typed stored values; malformed JSON in storage, on which `getStoredUTMData` and `getTrackingData` would throw, is treated as absent.
- Dates are millisecond timestamps and given day strings; `toISOString`, `toLocaleDateString` and date-fns formatting are not modelled, nor is the `toFixed` rounding of the tables.
- Percentages, averages and bar widths are real numbers, not IEEE doubles; only their identities and bounds are stated.
- `localeCompare` is an ordinal comparison of characters, and `toLowerCase` covers ASCII and the Latin-1 accented letters only.
- The delivery groupings (`Grouping.Keys`, `DeliveryManagement.GroupBy`, `DeliveryManagement.Grouped`, `Pedidos.CityEntries`) always list keys in first-encounter order. A plain JavaScript object lists integer-like names first, in ascending numeric order, so a neighbourhood "10" met before "2" reads back as "2", "10" there and as "10", "2" here. A city or neighbourhood named after an `Object.prototype` member ("constructor", "toString", "__proto__") makes `!acc[key]` false, and the `push` then throws a TypeError; the model files the lead like any other.
- The stored step and session starts are read with `parseInt` in the source. The model treats a stored value that is not a number as absent, which gives a time on step of 0 and a session time of "0s". The source gives NaN ("NaNs") for a non-numeric value and reads a value such as "123abc" as 123.
- In a neighbourhood mixing leads with and without a CEP the comparator is not a consistent order, so the engine's sort decides the result; the model fixes one stable insertion sort and states no order for such blocks.
- `setTimeout` delays, the retry timers, `setInterval` polling, `useEffect`/`useRef` plumbing and the 2-second simulated send are not modelled; `FormWizard.Wizard.HandleSubmitStart` and `HandleSubmitSettle` are the two halves of `handleSubmit` around that wait.
- `overrideUTMParams`, `updateUTMs`, `getFullTrackingData`, `useTrackingMonitor` and the `getTrackingData` of `src/utils/utm-tracker.ts` are debug or manual helpers outside the funnel and are not modelled; `generateSessionId`'s randomness is a parameter.
- The unused `withCounts` argument of `getNeighborhoodOrder` has no effect and is not a parameter of the model.
- `stepActivity` is always an empty list in `useRealtimeTracking` and is not a field of the snapshot.
- The 24-hour fallback query's `.limit(20)` is a property of the query; the fallback rows are an input of any length.
- `window.open` is a flag saying whether the browser allowed the pop-up; the printed HTML markup, its styles and the browser print dialog are not modelled: `ThermalPrint.PrintLabels` yields the labels it would print.
- Input `maxLength` attributes, icons, colours other than the activity colours, and the kit images are presentation.
- The step components' error dictionaries are records with an optional message per checked field, as their keys are a fixed set.
- `PurchaseMethodStep` and `CEPValidationModal` are modelled on their own: `FormWizard` does not render them, and `modalidadeCompra` is not one of its form fields.
- Null text columns are the empty string, null numbers 0 and null booleans false: the code only tests them for truthiness or compares them with non-empty literals.
- UtmTable.FormatTimeShape: stated for times of at least 0 s only; a negative average time is not produced by the code.
- Tracking.SessionTimeShape: stated for a clock reading no earlier than the session start; a clock that runs backwards is not modelled.
