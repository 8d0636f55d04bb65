# Fuel tracker core, modelled in Dafny

This project models the logic inside the React front end of a car fuel tracker:

- the trip efficiency estimator;
- the fuel-record table (search, date sort, ten-per-page paging);
- the dashboard's five most recent records and their statistics;
- the full history with zero-based paging;
- the two refuelling forms (the dialog that derives liters from the amount paid, and the plain form that derives the total from the liters);
- the authentication session kept in browser storage;
- the vehicle list and its create/edit dialog.

Each component whose state the code updates step by step is a Dafny `class`. Its fields are the component's state, and each method is one handler run as an atomic step. A method's `ensures` ties the new state to a pure function of the old state and of the server's reply. That reply is a parameter: nothing in the model talks to a network, a clock or the storage API. The pure functions carry the properties, stated as contracts and lemmas.

JavaScript semantics are written out in `js_runtime.dfy`:

- `Number(text)` for number inputs: the empty text is 0 and anything that is not a decimal literal is NaN;
- `toFixed` as rounding half away from zero on exact reals;
- ASCII `toLowerCase` and `includes`;
- `Array.prototype.slice` with clamping;
- `Math.ceil` of a quotient.

Dates are integer millisecond timestamps.

On the efficiency page, the cost per km divides the fixed fuel price of 1250 by the *unrounded* adjusted efficiency. The model follows the code. So for a normal/mixed trip of 100 km it gives 95.26 per km and a trip cost of 9526. For an aggressive/city trip with A/C it gives 158.12 per km and 15812. Dividing by the efficiency rounded to one decimal would give 95.42 and 158.23; the code divides by the unrounded value.

## Model

| member | source | states |
|---|---|---|
| FuelEfficiency.StyleFactor | src/pages/FuelEfficiency.tsx:64-68 | the style factor lies in (0, 1] and is 1 exactly for suave |
| FuelEfficiency.RouteFactor | src/pages/FuelEfficiency.tsx:70-74 | the route factor lies in (0, 1] and is 1 exactly for carretera |
| FuelEfficiency.TotalFactor | src/pages/FuelEfficiency.tsx:91-93 | style factor × route factor × 0.9 when A/C is on; its bounds are those of `FactorBounds` |
| FuelEfficiency.AdjustedEfficiency | src/pages/FuelEfficiency.tsx:96 | 18 × the combined factor, unrounded; its bounds are those of `AdjustedWithinBase` |
| FuelEfficiency.CostPerKm | src/pages/FuelEfficiency.tsx:99 | 1250 over the unrounded adjusted efficiency, to two decimals; its accuracy is `CostPerKmAccuracy` |
| FuelEfficiency.TripCost | src/pages/FuelEfficiency.tsx:100 | km consumed × the rounded cost per km, to two decimals; its monotonicity is `TripCostMonotone` |
| FuelEfficiency.Calculate | src/pages/FuelEfficiency.tsx:78-111 | rejected with the range message exactly when start ≤ end; otherwise km consumed = start − end > 0, base efficiency 18, cost per km from the unrounded efficiency, trip cost from the rounded cost per km, adjusted efficiency to one decimal |
| FuelEfficiency.CalculateOnPage | src/pages/FuelEfficiency.tsx:82-110 | a rejected trip sets the error and keeps the previously shown estimate; an accepted one replaces the estimate and clears the error |
| FuelEfficiency.FactorBounds | src/pages/FuelEfficiency.tsx:64-76 | the combined factor lies in (0, 1] and equals 1 only for suave, carretera and no A/C |
| FuelEfficiency.AdjustedWithinBase | src/pages/FuelEfficiency.tsx:96 | 0 < adjusted efficiency ≤ 18, with equality only under optimal conditions |
| FuelEfficiency.FactorTablesOrdered | src/pages/FuelEfficiency.tsx:64-74 | suave ≥ normal ≥ agresivo and carretera ≥ mixta ≥ ciudad |
| FuelEfficiency.WorseConditionsNeverHelp | src/pages/FuelEfficiency.tsx:91-99 | worse style, worse route or turning A/C on never raises the efficiency and never lowers the cost per km |
| FuelEfficiency.CostPerKmAccuracy | src/pages/FuelEfficiency.tsx:99 | the cost per km is positive and within 0.005 of 1250 / adjusted efficiency |
| FuelEfficiency.TripCostMonotone | src/pages/FuelEfficiency.tsx:100 | under the same conditions, a longer trip never costs less |
| FuelEfficiency.ExampleOptimalHighway | src/pages/FuelEfficiency.tsx:78-110 | 100 km, suave, carretera, no A/C: efficiency 18, 69.44 per km, trip 6944 |
| FuelEfficiency.ExampleNormalMixed | src/pages/FuelEfficiency.tsx:78-110 | 100 km, normal, mixta, no A/C: efficiency 13.1, 95.26 per km, trip 9526 |
| FuelEfficiency.ExampleAggressiveCityAc | src/pages/FuelEfficiency.tsx:78-110 | 100 km, agresivo, ciudad, A/C: efficiency 7.9, 158.12 per km, trip 15812 |
| JsRuntime.ToNumber | src/components/NewRecordModal.tsx:51 | `Number("")` is 0, and a text not starting with '-' never reads as a negative number |
| JsRuntime.RoundTo | src/pages/FuelEfficiency.tsx:99 | `toFixed(d)` moves a value by at most half a unit in the last place and keeps non-negative values non-negative |
| JsRuntime.RoundToMonotone | src/pages/FuelEfficiency.tsx:99-100 | rounding never reverses the order of two values |
| JsRuntime.RoundToExact | src/pages/FuelEfficiency.tsx:99 | a value already on the grid of 1/10^d is left unchanged |
| JsRuntime.Includes | src/components/FuelRecordTable.tsx:107-108 | `includes` holds exactly when the term occurs at some position, and always for the empty term |
| JsRuntime.Lower | src/components/FuelRecordTable.tsx:107-108 | lower-casing keeps the length and maps each character on its own |
| FuelTypes.SortKey | src/components/FuelRecordTable.tsx:111-117 | the comparator as a key: the timestamp ascending, its negation descending, and one constant for every other column, whose comparator returns 0 |
| FuelTypes.SortedByDateMeaning | src/components/FuelRecordTable.tsx:111-116 | sorting by the date key descending is newest first, ascending is oldest first |
| FuelTypes.SortRecords | src/components/FuelRecordTable.tsx:111-118 | the in-place sort leaves the array sorted by the comparator's key and a permutation of the input, and a comparator that always returns 0 leaves it unchanged |
| FuelTypes.InsertAt | src/components/FuelRecordTable.tsx:111-118 | one insertion step extends the sorted prefix by one record and keeps the records |
| Paging.PageShape | src/pages/FullHistory.tsx:53-56 | a page is the clamped window from k·size and holds at most size records |
| Paging.PageEmptyIffPastEnd | src/components/FuelRecordTable.tsx:120-124 | page k is empty exactly when k ≥ ceil(n / size) |
| Paging.FirstPagesPrefix | src/pages/FullHistory.tsx:53-56 | the first n pages laid end to end are the first n·size records |
| Paging.PagesCover | src/pages/FullHistory.tsx:53-56 | the ceil(n / size) pages laid end to end are the whole list |
| FuelRecordTable.Matches | src/components/FuelRecordTable.tsx:107-108 | the lower-cased station or the lower-cased location includes the lower-cased term |
| FuelRecordTable.Filter | src/components/FuelRecordTable.tsx:106-109 | the search never adds records |
| FuelRecordTable.FilterMembership | src/components/FuelRecordTable.tsx:106-109 | a record survives exactly when it is listed and its station or location contains the term, ignoring case |
| FuelRecordTable.FilterIsSubsequence | src/components/FuelRecordTable.tsx:106 | the search result keeps the original order |
| FuelRecordTable.EmptySearchKeepsAll | src/components/FuelRecordTable.tsx:106-109 | an empty term keeps every record |
| FuelRecordTable.SortClicked | src/components/FuelRecordTable.tsx:64-68 | the clicked column becomes active; the order is descending exactly when it was the active column and ascending |
| FuelRecordTable.RepeatedSortClickFlips | src/components/FuelRecordTable.tsx:64-68 | clicking the same column twice always flips the direction |
| FuelRecordTable.SearchAsWritten | src/components/FuelRecordTable.tsx:303 | the search box as written changes only the term and keeps the page |
| FuelRecordTable.Search | src/components/FuelRecordTable.tsx:303 | the corrected search sets the term and returns to page 1 |
| FuelRecordTable.PageRecords | src/components/FuelRecordTable.tsx:121-124 | `slice((page − 1)·10, page·10)` of the sorted records; its shape is `PageRecordsWindow` |
| FuelRecordTable.PageRecordsWindow | src/components/FuelRecordTable.tsx:120-124 | a 1-based page is the zero-based window one lower, holds at most 10 records, and is empty exactly past the last page |
| FuelRecordTable.TablePagesCover | src/components/FuelRecordTable.tsx:120-124 | pages 1 .. totalPages laid end to end are the sorted records |
| FuelRecordTable.StalePageHidesMatches | src/components/FuelRecordTable.tsx:120-124 | as written, a search with 1 to 10 matches typed on page 2 or later shows an empty page and no pager |
| FuelRecordTable.SearchShowsMatches | src/components/FuelRecordTable.tsx:120-124 | with the page reset, any search with matches shows its first ten |
| FuelRecordTable.RecordTable.constructor | src/components/FuelRecordTable.tsx:49-53 | no search, sorted by date descending, page 1 |
| FuelRecordTable.RecordTable.HandleSort | src/components/FuelRecordTable.tsx:64-68 | the state becomes `SortClicked` of the old state |
| FuelRecordTable.RecordTable.HandlePageChange | src/components/FuelRecordTable.tsx:70-72 | only the page changes |
| FuelRecordTable.RecordTable.SetSearchTerm | src/components/FuelRecordTable.tsx:303 | the state becomes `SearchAsWritten` of the old state: the term changes and the page stays |
| FuelRecordTable.RecordTable.Render | src/components/FuelRecordTable.tsx:106-126 | empty state exactly for no records; otherwise a sorted permutation of the search result (unchanged for non-date columns), ceil(n / 10) pages, the current page's slice, and a pager only with more than one page |
| Home.IsRecentSelection | src/pages/Home.tsx:38-40 | the shown records are at most five, newest first, drawn from the fetched ones, and none left out is newer than one shown |
| Home.NewestPrefix | src/pages/Home.tsx:38-40 | the first k records of a newest-first list are drawn from it and are at least as new as every record left out |
| Home.RecentRecords.constructor | src/pages/Home.tsx:28 | the dashboard starts with no records |
| Home.RecentRecords.LoadRecentRecords | src/pages/Home.tsx:35-45 | after a fetch the shown list is at most five records, newest first, taken from the fetched ones, with none left out newer; a failed fetch changes nothing |
| Home.MeanPrice | src/pages/Home.tsx:70 | the mean times the count is the sum of the prices |
| Home.CalculateStats | src/pages/Home.tsx:66-76 | all zero for no records; total = sum of costs; mean price times count = sum of prices; trend 0 for a single record |
| Home.SumPriceBounds | src/pages/Home.tsx:70 | prices within [lo, hi] sum to between n·lo and n·hi |
| Home.AveragePriceWithinRange | src/pages/Home.tsx:70 | the mean price lies between the lowest and highest shown price |
| Home.TrendFollowsPriceChange | src/pages/Home.tsx:71-73 | with a positive oldest price the trend is (newest − oldest) / oldest · 100, positive exactly when the price rose and 0 exactly when it did not move |
| Home.TrendUndefinedAtZeroPrice | src/pages/Home.tsx:71-73 | an oldest price of 0 gives a trend that is not a finite number |
| FullHistory.Shown | src/pages/FullHistory.tsx:53-56 | `slice(page·rowsPerPage, page·rowsPerPage + rowsPerPage)` of the records; its shape is `ShownIsWindow` |
| FullHistory.ChangePage | src/pages/FullHistory.tsx:44-46 | only the page changes |
| FullHistory.ChangeRowsPerPage | src/pages/FullHistory.tsx:48-51 | the new page size applies and the page returns to 0 |
| FullHistory.ShownIsWindow | src/pages/FullHistory.tsx:53-56 | the shown page holds at most rowsPerPage records from position page·rowsPerPage on |
| FullHistory.ResizeShowsNewest | src/pages/FullHistory.tsx:48-56 | after a resize the first records are shown |
| FullHistory.HistoryPagesCover | src/pages/FullHistory.tsx:53-56 | pages 0 .. ceil(n / rpp) − 1 are non-empty and together are all the records |
| FullHistory.FullHistoryPage.constructor | src/pages/FullHistory.tsx:14-16 | no records, page 0, ten rows per page |
| FullHistory.FullHistoryPage.LoadRecords | src/pages/FullHistory.tsx:22-33 | a fetched array is sorted newest first in place and becomes the list, as a permutation; a failed fetch changes nothing |
| FullHistory.FullHistoryPage.HandleChangePage | src/pages/FullHistory.tsx:44-46 | the state becomes `ChangePage` of the old state |
| FullHistory.FullHistoryPage.HandleChangeRowsPerPage | src/pages/FullHistory.tsx:48-51 | the state becomes `ChangeRowsPerPage` of the old state |
| NewRecordModal.WithField | src/components/NewRecordModal.tsx:59-65 | only the named field takes the new value |
| NewRecordModal.ShowTotal | src/components/NewRecordModal.tsx:96 | both the price and the amount read as positive numbers |
| NewRecordModal.SaveDisabled | src/components/NewRecordModal.tsx:270 | some of the four fields is still empty |
| NewRecordModal.LitersFor | src/components/NewRecordModal.tsx:50-57 | with positive price and amount, liters within 0.05 of amount / price; otherwise 0; never negative |
| NewRecordModal.CalculatedLiters | src/components/NewRecordModal.tsx:48-57 | the liters shown are never negative and are 0 unless the summary shows |
| NewRecordModal.ModalRecord | src/components/NewRecordModal.tsx:67-76 | the record carries the parsed price, the parsed amount as total, the derived liters and the texts verbatim |
| NewRecordModal.SummaryNeedsPriceAndAmount | src/components/NewRecordModal.tsx:96 | the summary needs both price and amount typed, and positive liters need the summary |
| NewRecordModal.ClearedFormIsInert | src/components/NewRecordModal.tsx:80-85 | a cleared form has save disabled, no summary and 0 liters |
| NewRecordModal.NewRecordModal.constructor | src/components/NewRecordModal.tsx:41-48 | empty fields and 0 liters, consistent with the liters rule |
| NewRecordModal.NewRecordModal.RecomputeLiters | src/components/NewRecordModal.tsx:50-57 | the liters agree with the liters rule for the current fields |
| NewRecordModal.NewRecordModal.HandleInputChange | src/components/NewRecordModal.tsx:59-65 | only the named field changes and the liters stay in step |
| NewRecordModal.NewRecordModal.HandleSubmit | src/components/NewRecordModal.tsx:67-86 | reachable only with all four fields typed (the save button's condition at line 270); `onSubmit` with the record built from the old fields, whose station and place are therefore non-empty, then `onClose`; afterwards every field is empty and the liters are 0 |
| FuelRecordForm.WithField | src/components/FuelRecordForm.tsx:24-30 | only the named field takes the new value |
| FuelRecordForm.FormRecord | src/components/FuelRecordForm.tsx:32-44 | liters and price are the fields read as numbers, the total is their product (finite exactly when both are), texts copied |
| FuelRecordForm.TotalAndLitersAreInverse | src/components/FuelRecordForm.tsx:34 | before rounding, price × (total / price) = total and (price × liters) / price = liters |
| FuelRecordForm.RoundedLitersReproduceTotal | src/components/NewRecordModal.tsx:50-53 | price times the dialog's rounded liters is within 0.05 liters' worth of the amount paid |
| FuelRecordForm.FuelRecordForm.constructor | src/components/FuelRecordForm.tsx:17-22 | all four fields empty |
| FuelRecordForm.FuelRecordForm.HandleInputChange | src/components/FuelRecordForm.tsx:24-30 | the form becomes `WithField` of the old form |
| FuelRecordForm.FuelRecordForm.HandleSubmit | src/components/FuelRecordForm.tsx:32-89 | reachable only with all four fields non-empty (every input is `required` and the form keeps browser validation); exactly one record, built from the current fields, whose station and place are therefore non-empty; the form is not modified |
| AuthContext.Initial | src/contexts/AuthContext.tsx:17-19 | no user, loading, authenticated exactly when a truthy token is stored |
| AuthContext.Verify | src/contexts/AuthContext.tsx:21-53 | no token: only loading ends; verified: user set, authenticated; 401: token removed, signed out; other failure: still authenticated, user restored from stored user data when present; loading false on every path; other keys kept |
| AuthContext.Authenticate | src/contexts/AuthContext.tsx:58-96 | a non-empty token stores token and user data and signs in; an empty token or a failure signs out and raises the error; a rejection marked as expired drops the token; other keys kept |
| AuthContext.Logout | src/contexts/AuthContext.tsx:98-103 | token and user data removed, signed out, other keys kept |
| AuthContext.Consistent | src/contexts/AuthContext.tsx:17-19 | being authenticated implies a truthy stored token, and a known user implies being authenticated |
| AuthContext.StepKeepsConsistent | src/contexts/AuthContext.tsx:21-103 | every step keeps "authenticated implies a token is stored" and "a known user implies authenticated" |
| AuthContext.RunFromConsistent | src/contexts/AuthContext.tsx:21-103 | any sequence of steps from a consistent state stays consistent |
| AuthContext.RunKeepsConsistent | src/contexts/AuthContext.tsx:17-103 | from mounting on, after any sequence of replies and sign-outs, the session is consistent |
| AuthContext.OfflineCheckKeepsSignedInUser | src/contexts/AuthContext.tsx:36-48 | after signing in, a check failing with anything but 401 keeps the user signed in with the data saved at sign-in |
| AuthContext.LogoutIsFinalForVerify | src/contexts/AuthContext.tsx:98-103 | after logout no check reply can sign the user back in |
| AuthContext.RejectedTokenStaysRejected | src/contexts/AuthContext.tsx:31-35 | after a 401 on the check, checking again changes nothing |
| AuthContext.AuthProvider.constructor | src/contexts/AuthContext.tsx:17-19 | the provider starts in `Initial` of the storage |
| AuthContext.AuthProvider.VerifyAuth | src/contexts/AuthContext.tsx:22-53 | the state becomes `Verify` of the old state and the reply |
| AuthContext.AuthProvider.SignIn | src/contexts/AuthContext.tsx:58-96 | the state and the raised error are those of `Authenticate` |
| AuthContext.AuthProvider.Login | src/contexts/AuthContext.tsx:58-76 | `Authenticate` with the login message for a missing token |
| AuthContext.AuthProvider.Register | src/contexts/AuthContext.tsx:78-96 | `Authenticate` with the registration message for a missing token |
| AuthContext.AuthProvider.LogOut | src/contexts/AuthContext.tsx:98-103 | the state becomes `Logout` of the old state |
| VehicleTypes.OrText | src/pages/Vehicles.tsx:58-59 | `text \|\| fallback`: the text when non-empty, otherwise the fallback |
| VehicleTypes.OrReal | src/pages/Vehicles.tsx:60 | `x \|\| fallback`: the number when present and non-zero, otherwise the fallback |
| VehicleTypes.OrFalse | src/pages/Vehicles.tsx:57 | `flag \|\| false` is true exactly when the flag is present and true |
| VehicleFormDialog.FigureOrZero | src/components/VehicleFormDialog.tsx:38-42 | a consumption figure falls back to 0 when the vehicle has no consumption, or the figure is missing or 0 |
| VehicleFormDialog.InitialForm | src/components/VehicleFormDialog.tsx:29-45 | each field is the edited vehicle's value when truthy, else '', the current year, false or 0; both timestamps are the build time |
| VehicleFormDialog.ConsumptionDefaultsIndependent | src/components/VehicleFormDialog.tsx:38-42 | each figure shows 0 exactly when that figure itself is missing or 0, whatever the other two are |
| VehicleFormDialog.MissingRequired | src/components/VehicleFormDialog.tsx:48 | the model, the brand or the plate is empty |
| VehicleFormDialog.Rendered | src/components/VehicleFormDialog.tsx:63-130 | the dialog has inputs for brand, model, year and the three consumption figures, and none for the plate |
| VehicleFormDialog.ApplyInput | src/components/VehicleFormDialog.tsx:69-130 | typing changes only the field typed into, numeric fields read with `Number` |
| VehicleFormDialog.RenderedInputsKeepPlate | src/components/VehicleFormDialog.tsx:63-130 | typing into the rendered inputs, in any order, never changes the plate |
| VehicleFormDialog.NewVehicleNeverSaves | src/components/VehicleFormDialog.tsx:48 | a dialog seeded with no vehicle keeps an empty plate whatever is typed, so it can never be saved |
| VehicleFormDialog.PlateInputMakesNewVehicleSaveable | src/components/VehicleFormDialog.tsx:48 | with a plate input, typing a brand, model and plate gives a saveable form holding exactly them |
| VehicleFormDialog.NewDialogNeedsInput | src/components/VehicleFormDialog.tsx:29-51 | the form seeded with no vehicle, as at the dialog's mount, cannot be saved before brand, model and plate are typed |
| VehicleFormDialog.VehicleFormDialog.constructor | src/components/VehicleFormDialog.tsx:29-45 | the form starts as `InitialForm` of the vehicle given at mount, the only time it is seeded |
| VehicleFormDialog.VehicleFormDialog.SetBrand | src/components/VehicleFormDialog.tsx:69 | the form becomes `ApplyInput` of the old form with `BrandTyped`: only that field changes |
| VehicleFormDialog.VehicleFormDialog.SetModel | src/components/VehicleFormDialog.tsx:78 | the form becomes `ApplyInput` of the old form with `ModelTyped`: only that field changes |
| VehicleFormDialog.VehicleFormDialog.SetYear | src/components/VehicleFormDialog.tsx:88 | the form becomes `ApplyInput` of the old form with `YearTyped`: only that field changes |
| VehicleFormDialog.VehicleFormDialog.SetCity | src/components/VehicleFormDialog.tsx:103-106 | the form becomes `ApplyInput` of the old form with `CityTyped`: only that field changes |
| VehicleFormDialog.VehicleFormDialog.SetHighway | src/components/VehicleFormDialog.tsx:115-118 | the form becomes `ApplyInput` of the old form with `HighwayTyped`: only that field changes |
| VehicleFormDialog.VehicleFormDialog.SetMixed | src/components/VehicleFormDialog.tsx:127-130 | the form becomes `ApplyInput` of the old form with `MixedTyped`: only that field changes |
| VehicleFormDialog.VehicleFormDialog.HandleSubmit | src/components/VehicleFormDialog.tsx:47-55 | the error notice alone exactly when brand, model or plate is empty; otherwise `onSubmit(form)` then `onClose` |
| VehiclesPage.Normalize | src/pages/Vehicles.tsx:55-61 | `isDefault`, `transmission`, `fuelType` and `engineSize` get their defaults when falsy; every other field is kept |
| VehiclesPage.NormalizeIdempotent | src/pages/Vehicles.tsx:55-61 | normalising twice is normalising once |
| VehiclesPage.DialogSeesThroughNormalize | src/components/VehicleFormDialog.tsx:29-45 | seeding the form from a normalised vehicle gives the same form as seeding it from the raw vehicle |
| VehiclesPage.NormalizeAll | src/pages/Vehicles.tsx:55-62 | same length, and each vehicle normalised in place |
| VehiclesPage.NormalizeAllIdempotent | src/pages/Vehicles.tsx:55-62 | normalising the loaded list twice changes nothing more |
| VehiclesPage.DeleteById | src/pages/Vehicles.tsx:90 | deletion never adds vehicles |
| VehiclesPage.DeleteByIdMembership | src/pages/Vehicles.tsx:90 | a vehicle survives exactly when it was listed and has another id |
| VehiclesPage.DeleteByIdKeepsOrder | src/pages/Vehicles.tsx:90 | the survivors keep their order |
| VehiclesPage.SaveCallFor | src/pages/Vehicles.tsx:259-265 | update with the selected id exactly when a selected vehicle has a non-empty id; otherwise create; the data is passed through |
| VehiclesPage.EditUpdatesAddCreates | src/pages/Vehicles.tsx:259-265 | saving after "edit" on a vehicle with an id updates it; saving after "add" creates |
| VehiclesPage.OpenAsWritten | src/pages/Vehicles.tsx:73-80 | opening selects the vehicle and shows the dialog, and the form keeps what it held |
| VehiclesPage.OpenReseeded | src/components/VehicleFormDialog.tsx:29-45 | the corrected opening: the form is seeded from the vehicle, as at mount |
| VehiclesPage.CloseDialog | src/pages/Vehicles.tsx:82-85 | closing hides the dialog and clears the selection, and the form is untouched |
| VehiclesPage.Mounted | src/pages/Vehicles.tsx:45 | at mount nothing is selected, so the dialog is seeded with no vehicle and hidden |
| VehiclesPage.StepAsWritten | src/pages/Vehicles.tsx:73-107 | opening (add or edit) is `OpenAsWritten`, typing is the dialog's `ApplyInput`, closing is `CloseDialog` |
| VehiclesPage.RunAsWrittenKeepsPlate | src/components/VehicleFormDialog.tsx:63-130 | no sequence of openings, typing into rendered inputs and closings changes the dialog's plate |
| VehiclesPage.StaleDialogNeverSaves | src/pages/Vehicles.tsx:253-272 | as written, from the mount on, the dialog's plate stays empty and every save only raises the required-fields notice |
| VehiclesPage.EditShowsMountedForm | src/pages/Vehicles.tsx:98-107 | as written, "edit" on a Toyota / Corolla / XY34 shows the empty mount-time form, which cannot be saved |
| VehiclesPage.ReseededDialogShowsVehicle | src/components/VehicleFormDialog.tsx:29-45 | with reseeding, "edit" shows the vehicle's own seeded form, which is saveable when the vehicle has a brand, model and plate; saving it unchanged updates that vehicle with that form; "add" cannot be saved as it opens |
| VehiclesPage.VehiclesPage.constructor | src/pages/Vehicles.tsx:41-45 | no vehicles, loading, no error, dialog closed, nothing selected, and the dialog mounted with the form seeded from no vehicle |
| VehiclesPage.VehiclesPage.BeginLoad | src/pages/Vehicles.tsx:53 | loading becomes true, nothing else changes |
| VehiclesPage.VehiclesPage.FinishLoad | src/pages/Vehicles.tsx:51-71 | success: the normalised list and no error; failure: the error message and the old list; loading false either way |
| VehiclesPage.VehiclesPage.HandleOpenDialog | src/pages/Vehicles.tsx:73-80 | the dialog becomes `OpenAsWritten` of the old one: the vehicle (or none) selected, shown, form kept |
| VehiclesPage.VehiclesPage.HandleCloseDialog | src/pages/Vehicles.tsx:82-85 | the dialog becomes `CloseDialog` of the old one |
| VehiclesPage.VehiclesPage.HandleDelete | src/pages/Vehicles.tsx:87-96 | a confirmed deletion removes exactly that id; a failed one leaves the list unchanged |
| VehiclesPage.VehiclesPage.HandleEditVehicle | src/pages/Vehicles.tsx:98-107 | the dialog becomes `OpenAsWritten` of the old one with the normalised vehicle; the form is not reseeded |
| VehiclesPage.VehiclesPage.SubmitDialog | src/pages/Vehicles.tsx:257-272 | with brand, model or plate empty only the dialog's notice; otherwise the request carries the dialog's form and is chosen from the selection before saving, the dialog closes whatever the outcome, and a successful save starts a reload |

## Left out

- Numbers are exact reals, not IEEE doubles. `RoundTo` is exact half-away-from-zero rounding, so values that a double cannot represent (such as 1250 / 13.122) may round differently from `toFixed` at a tie.
- JsRuntime.ToNumber: reads only an optional '-' followed by a decimal literal. Whitespace, exponents, hexadecimal, "Infinity" and a leading '+' are read as NaN rather than as `Number` would read them. NaN and the infinities are one `NonFinite` value.
- JsRuntime.Lower: only ASCII letters are lower-cased; `toLowerCase` on other scripts is not modelled.
- FuelTypes.SortRecords: the model sorts by insertion, which is stable, as `Array.prototype.sort` must be; a comparator that returns 0 for every pair therefore leaves the order unchanged. The engine's own algorithm is not modelled.
- Storage holds either a user written at sign-in or opaque text. Text that happens to parse as JSON is treated as unparseable, so `JSON.parse` of arbitrary text is not modelled.
- The request layer's token eviction (a 401 whose message says the token expired) is the `evictsToken` input flag, not a parse of the message. The server calls themselves, the axios interceptors and the `api.ts` client are not part of this model.
- Asynchronous interleavings are not modelled: each handler is one atomic step, and the vehicles load is split into its start and its finish. A reply that arrives after a later step (for example a verification that completes after a logout) is not modelled.
- Date formatting (`date-fns`, `Intl.NumberFormat`, `toLocaleString`) is left out; dates are integer timestamps.
- The dashboard's and full history's delete and create handlers only reload the list; the reload is `LoadRecentRecords`/`LoadRecords`, and the network call before it is left out, as is the dashboard's `isModalOpen` flag.
- The efficiency page's input setters and its tank cost and tank range fields are not modelled; the estimate never reads the tank fields.
- The snackbar notices are returned as message strings. Their variant and display are left out.
- The classes follow the code as written, including both behaviours under "## Findings". The corrected behaviours (`FuelRecordTable.Search`, `VehiclesPage.OpenReseeded` and a plate input, `VehicleFormDialog.PlateTyped`) are stated as functions with their proved properties, and no class method runs them.
- The vehicle dialog's title ("Editar" or "Nuevo"), which follows `initialData` on every render, is left out.
- `parseInt` of the rows-per-page selector is not modelled: `HandleChangeRowsPerPage` receives the parsed integer.

## Findings

| source | as written | input that shows it | evidently intended | confidence | as-written member | corrected member |
|---|---|---|---|---|---|---|
| src/components/FuelRecordTable.tsx:303 | typing a search term keeps the current page, so the page index can point past the end of the filtered list; with one page left the pager is hidden, and the matches cannot be reached until the search is cleared | 11 records from station "Shell" and 1 from "Copec"; the user is on page 2 and types "copec" | typing a search returns to page 1 | not executed | FuelRecordTable.StalePageHidesMatches | FuelRecordTable.SearchShowsMatches |
| src/pages/Vehicles.tsx:253-272 | the dialog is rendered unconditionally and reads its `initialData` only when its form state is created (src/components/VehicleFormDialog.tsx:29-45), when nothing is selected; "edit" and "add" later only change the selection, so the form is never seeded from a vehicle | right after the page loads, click edit on a Toyota / Corolla / XY34: the dialog titled "Editar" shows an empty brand, model and plate, and "Actualizar" only raises the required-fields notice | every opening seeds the form from the selected vehicle, or from the defaults for a new one | not executed | VehiclesPage.EditShowsMountedForm | VehiclesPage.ReseededDialogShowsVehicle |
| src/components/VehicleFormDialog.tsx:48 | the plate is required, but the dialog renders no input for it, so a form seeded without a plate can never be saved; with the stale seeding above, the page's dialog never saves at all | click "Agregar", type brand Ford and model Fiesta: "Crear" only raises the required-fields notice, and nothing typed can change that | the dialog has a plate input like the brand and model inputs | not executed | VehicleFormDialog.NewVehicleNeverSaves | VehicleFormDialog.PlateInputMakesNewVehicleSaveable |
