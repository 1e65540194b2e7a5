# TripPlanner core in Dafny

A model of the logic at the centre of the TripPlanner iOS app. Each part below is a module
of its own:

- the four records the app exchanges with its backend (`Trip`, `Activity`, `Hotel`, `Flight`) and
  the JSON encoding and decoding that their synthesized `Codable` conformances perform (`Wire`,
  `Model`);
- `APIError` and everything a service call can throw (`ApiErrors`);
- `TripService`: the request each of its five operations builds, and how `sendRequest`
  classifies the response (`TripService`);
- the city picker's search filter and row selection (`CitySelection`);
- the date-range picker's clamping (`DateSelection`);
- the trip list screen's ordinal day suffix and its two ways of building a new trip
  (`TripListView`);
- the "create trip" sheet's Next-button rule and submission (`TripSheetView`);
- the two view models, written as transitions from a state and a service outcome to a new
  state (`TripListViewModel`, `FlightSelectionViewModel`).

Foundation's string operations are modelled on ASCII text in `Ascii`. These are trimming
spaces and tabs, lower-casing, substring search and `Int(_:)`.

Modelling choices:

- **Dates** are whole-second `int` instants. The `.iso8601` strategy is a parameter: a
  `DateCodec` made of a `format` and a `parse` function. The round-trip results assume only that
  `parse` reads back what `format` writes (`Wire.RoundTrips`).
- **Prices** (`Double`) are kept as their 64-bit IEEE pattern. `JSONEncoder` throws on an
  infinite or NaN value, so encoding a trip is partial.
- **The network** is an input. Every service call is given the `Exchange` that `URLSession`
  would produce: a response, or a transport error. It returns the request it sent, which is
  `None` when the call throws before reaching the network, together with its result.
- **View-model errors.** The `errorMessage` a view model shows is the `localizedDescription` of
  the thrown error. The model stores the thrown error itself, and
  `ApiErrors.LocalizedDescription` gives its text.
- **Asynchronous tasks** are split at their `await`. The part before the `await` and the part
  after it are separate transitions.

Some of the code's behaviour may surprise a caller. The model follows the code in each case,
and the lemmas named below exhibit it.

- A response whose status is outside 200..<300 becomes `invalidResponse`. The status code and
  the body are not kept (`TripService.RejectedStatusIsOpaque`).
- A successful status with a body that does not decode fails with the decoder's own
  `DecodingError`. There is no separate "malformed response" `APIError`
  (`TripService.UnparsableBodyIsDecodingError`).
- `invalidResponse` describes itself as "failed to decode response" (APIError.swift:20-21),
  although `sendRequest` throws it exactly when no decoding was attempted (TripService.swift:39-41).
- `deleteTrip` never looks at the response, so any status counts as success
  (`TripService.DeleteTrip`, `TripListViewModel.DeleteIgnoresStatus`).
- `fetchFlights` adds the destination query for any non-empty destination. It does not trim it
  first (`TripService.BlankDestinationIsQueried`).
- No operation ever throws `APIError.NetworkError`. Transport errors pass through unwrapped
  (`TripService.NetworkErrorNeverThrown`).
- Both submit functions in `TripListView.swift` call a five-argument `Trip` initializer.
  `Trip` declares no such initializer: its memberwise initializer takes all nine properties. The
  model keeps exactly the five fields those call sites supply, as `TripListView.TripDraft`.
- `Activity` declares its key enum as `Codingkeys`. Swift does not use that name for the
  coding-key enum, so the synthesized keys are the property names. Those are the same five
  names, and the model uses them.

## Model

| member | source | states |
|---|---|---|
| Ascii.Trim | TripPlanner/TripPlanner/Features/CitySelection/CitySelectionViewController.swift:122 | the result has no space or tab at either end, and the input is the result padded only with spaces and tabs |
| Ascii.TrimUnique | TripPlanner/TripPlanner/Features/CitySelection/CitySelectionViewController.swift:122 | any blank-free-ended text that the input pads is the trimmed text, so trimming is characterized independently of how it is computed |
| Ascii.TrimEmptyIffAllBlank | TripPlanner/TripPlanner/Features/TripList/TripSheetView.swift:202 | trimming leaves nothing exactly when the text is all spaces and tabs |
| Ascii.TrimIdempotent | TripPlanner/TripPlanner/Features/TripList/TripListView.swift:286 | trimming twice equals trimming once |
| Ascii.TrimIgnoresPadding | TripPlanner/TripPlanner/Features/CitySelection/CitySelectionViewController.swift:122 | blanks added on either side do not change the trimmed text |
| Ascii.PaddedUnique | TripPlanner/TripPlanner/Features/CitySelection/CitySelectionViewController.swift:122 | two texts without blanks at their ends that the same input pads with blanks are equal |
| Ascii.PaddedInside | TripPlanner/TripPlanner/Features/CitySelection/CitySelectionViewController.swift:122 | adding blanks around a padded text keeps it padded, at an offset shifted by the added prefix |
| Ascii.Lower | TripPlanner/TripPlanner/Features/CitySelection/CitySelectionViewController.swift:122 | lower-casing keeps the length and maps each character on its own |
| Ascii.LowerTrimCommute | TripPlanner/TripPlanner/Features/CitySelection/CitySelectionViewController.swift:122 | trimming then lower-casing equals lower-casing then trimming |
| Ascii.Contains | TripPlanner/TripPlanner/Features/CitySelection/CitySelectionViewController.swift:127-129 | true exactly when the needle occurs at some offset of the text |
| Ascii.ParseInt | TripPlanner/TripPlanner/Features/TripList/TripListView.swift:378 | `Int(_:)` yields a value only in the 64-bit range, only for text that starts with a sign or a digit, and never for empty text |
| Ascii.DecimalDigits | TripPlanner/TripPlanner/Features/TripList/TripListView.swift:376-378 | the decimal text of a number is non-empty, all digits, and has that number as its value |
| Ascii.ParseDecimal | TripPlanner/TripPlanner/Features/TripList/TripListView.swift:378 | `Int(_:)` reads back the decimal text of every non-negative 64-bit number |
| Model.EncodeHotel | TripPlanner/TripPlanner/Core/Model/Model.swift:43-55 | encoding succeeds exactly when the price is finite, writes all hotel keys except a nil `imageURL`, and each property reads back from its own key (the dates whenever the date strategy reads back what it writes) |
| Model.EncodeFlight | TripPlanner/TripPlanner/Core/Model/Model.swift:57-71 | encoding succeeds exactly when the price is finite, writes exactly the flight keys, and each property reads back from its own key (the dates whenever the date strategy reads back what it writes) |
| Model.EncodeActivity | TripPlanner/TripPlanner/Core/Model/Model.swift:29-41 | an activity is written as an object with exactly its five property names as keys, each property readable from its own key |
| Model.EachElement | TripPlanner/TripPlanner/Core/Network/TripService.swift:43-56 | an array encodes, or decodes, exactly when every element does, element by element and in order, and a failure is some element's own error |
| Model.HotelsEncodable | TripPlanner/TripPlanner/Core/Model/Model.swift:18 | a hotel list encodes exactly when every hotel's price is finite |
| Model.FlightsEncodable | TripPlanner/TripPlanner/Core/Model/Model.swift:19 | a flight list encodes exactly when every flight's price is finite |
| Model.EncodeTrip | TripPlanner/TripPlanner/Core/Network/TripService.swift:31-56 | `JSONEncoder` throws exactly when some nested price is not finite, and otherwise writes every trip key except a nil `imageURL` |
| Model.TripObject | TripPlanner/TripPlanner/Core/Model/Model.swift:22-25 | the encoded trip object carries exactly the `CodingKeys`, minus `imageURL` when it is nil |
| Model.DecodeActivity | TripPlanner/TripPlanner/Core/Model/Model.swift:29-41 | a decoded activity came from an object holding all five keys; each field is read back from its own key with the matching reader (string, date, number or optional string); `null` in its place throws `valueNotFound`, and any other non-object value `typeMismatch` |
| Model.DecodeHotel | TripPlanner/TripPlanner/Core/Model/Model.swift:43-55 | a decoded hotel came from an object holding every key but `imageURL`; each field is read back from its own key with the matching reader (string, date, number or optional string); `null` in its place throws `valueNotFound`, and any other non-object value `typeMismatch` |
| Model.DecodeFlight | TripPlanner/TripPlanner/Core/Model/Model.swift:57-71 | a decoded flight came from an object holding all eight keys; each field is read back from its own key with the matching reader (string, date, number or optional string); `null` in its place throws `valueNotFound`, and any other non-object value `typeMismatch` |
| Model.DecodeTrip | TripPlanner/TripPlanner/Core/Model/Model.swift:10-25 | a decoded trip came from an object holding every key but `imageURL`; `null` in its place throws `valueNotFound`, and any other non-object value `typeMismatch` |
| Model.DecodeList | TripPlanner/TripPlanner/Core/Network/TripService.swift:37-50 | a top-level array decodes exactly when every element does, each result the decoding of the element at the same index; a failing array fails with its first failing element's error; `null` throws `valueNotFound` and any other non-array value `typeMismatch` |
| Model.EachRoundTrip | TripPlanner/TripPlanner/Core/Network/TripService.swift:25-35 | decoding an encoded array gives it back when every element round-trips |
| Model.ActivityRoundTrip | TripPlanner/TripPlanner/Core/Model/Model.swift:29-41 | decoding an encoded activity gives it back |
| Model.HotelRoundTrip | TripPlanner/TripPlanner/Core/Model/Model.swift:43-55 | decoding an encoded hotel gives it back, dates and optional image included |
| Model.FlightRoundTrip | TripPlanner/TripPlanner/Core/Model/Model.swift:57-71 | decoding an encoded flight gives it back |
| Model.ActivitiesRoundTrip | TripPlanner/TripPlanner/Core/Model/Model.swift:17 | a trip's activity list round-trips |
| Model.HotelsRoundTrip | TripPlanner/TripPlanner/Core/Model/Model.swift:18 | a trip's hotel list round-trips whenever it encodes |
| Model.FlightsRoundTrip | TripPlanner/TripPlanner/Core/Model/Model.swift:19 | a trip's flight list round-trips whenever it encodes |
| Model.ReadDateBack | TripPlanner/TripPlanner/Core/Network/TripService.swift:25-35 | a date written with the shared strategy reads back as the same instant |
| Model.EncodedTripEntries | TripPlanner/TripPlanner/Core/Network/TripService.swift:56 | an encoded trip is the trip object built from its encoded arrays |
| Model.TripObjectEntries | TripPlanner/TripPlanner/Core/Model/Model.swift:10-25 | what the encoded trip holds under each key, with `imageURL` reading back as the trip's own |
| Model.HeaderRoundTrip | TripPlanner/TripPlanner/Core/Model/Model.swift:12-16 | the id, name, destination and both dates of an encoded trip read back as the trip's own |
| Model.ListsRoundTrip | TripPlanner/TripPlanner/Core/Model/Model.swift:17-19 | an object holding a trip's encoded activity, hotel and flight arrays decodes them to the trip's own lists |
| Model.ReadsAgree | TripPlanner/TripPlanner/Core/Model/Model.swift:22-25 | two objects with the same entry (or the same absence) under a key read the same value, or fail alike, at that key |
| Model.RequiredPartsAgree | TripPlanner/TripPlanner/Core/Model/Model.swift:12-25 | two objects that agree on every required trip key decode to the same required fields and lists, or fail alike |
| Model.TripRoundTrip | TripPlanner/TripPlanner/Core/Network/TripService.swift:25-35 | decoding any encodable trip's encoding gives back the same trip, nested records included |
| Model.TripRequiresKeys | TripPlanner/TripPlanner/Core/Model/Model.swift:12-24 | a trip object missing any key except `imageURL` fails to decode |
| Model.TripImageOptional | TripPlanner/TripPlanner/Core/Model/Model.swift:20 | dropping `imageURL` from a decodable trip object decodes to the same trip with a nil image |
| Model.TripIgnoresOtherKeys | TripPlanner/TripPlanner/Core/Model/Model.swift:22-25 | keys outside the `CodingKeys` do not affect decoding |
| ApiErrors.ErrorDescription | TripPlanner/TripPlanner/Core/Network/APIError.swift:16-25 | every case has a description: the two fixed texts, and the wrapped error's own text |
| ApiErrors.LocalizedDescription | TripPlanner/TripPlanner/Features/TripList/TripListViewModel.swift:39 | an `APIError` shows its `errorDescription`; every other error shows Foundation's text for it |
| TripService.SendRequest | TripPlanner/TripPlanner/Core/Network/TripService.swift:37-44 | a transport error passes through; any non-HTTP or non-2xx response is `invalidResponse` whatever its body; success holds exactly when a 2xx body decodes, and it returns the decoded value; a decode failure is thrown as the decoder's own error |
| TripService.DecoderOnlyOnSuccess | TripPlanner/TripPlanner/Core/Network/TripService.swift:39-43 | the decoder can affect the result only for a 2xx HTTP response that carries JSON |
| TripService.FetchTrips | TripPlanner/TripPlanner/Core/Network/TripService.swift:46-50 | a GET of `trips` with no query, headers or body, whose result is classified as `sendRequest` does for a trip list |
| TripService.CreateTrip | TripPlanner/TripPlanner/Core/Network/TripService.swift:52-59 | a request is sent exactly when the trip can be encoded; it is a JSON POST to `trips` carrying the encoded trip; an encoding failure throws before any request |
| TripService.UpdateTrip | TripPlanner/TripPlanner/Core/Network/TripService.swift:61-68 | as for create, but a PUT to `trips/` followed by the trip's id |
| TripService.DeleteTrip | TripPlanner/TripPlanner/Core/Network/TripService.swift:70-74 | a DELETE of `trips/` followed by the id; it succeeds exactly when any response arrives, whatever its status |
| TripService.FetchFlights | TripPlanner/TripPlanner/Core/Network/TripService.swift:76-91 | nothing is sent and `invalidURL` is thrown exactly when no URL can be built; otherwise a GET of `flights` whose single `destination` query item is present exactly when the destination is non-nil and non-empty |
| TripService.SentBodyIsTrip | TripPlanner/TripPlanner/Core/Network/TripService.swift:52-65 | the body that create and update send decodes back to the very trip given |
| TripService.BlankDestinationIsQueried | TripPlanner/TripPlanner/Core/Network/TripService.swift:79-83 | a destination of one space still produces a query, because it is not trimmed |
| TripService.NetworkErrorNeverThrown | TripPlanner/TripPlanner/Core/Network/TripService.swift:37-91 | none of the five operations throws `APIError.NetworkError` |
| TripService.RejectedStatusIsOpaque | TripPlanner/TripPlanner/Core/Network/TripService.swift:39-42 | a 503 "maintenance" reply to `fetchTrips` yields only `invalidResponse`, whose description is "failed to decode response" |
| TripService.UnparsableBodyIsDecodingError | TripPlanner/TripPlanner/Core/Network/TripService.swift:43 | a 2xx reply that is not JSON, JSON of the wrong shape, `null`, or an array holding `null` fails with the decoder's error (`dataCorrupted`, `typeMismatch`, `valueNotFound`) rather than an `APIError` |
| CitySelection.Load | TripPlanner/TripPlanner/Features/CitySelection/CitySelectionViewController.swift:55-68 | before any search, all six catalogue rows are shown in catalogue order |
| CitySelection.Query | TripPlanner/TripPlanner/Features/CitySelection/CitySelectionViewController.swift:122 | the query is the lower-cased search text with its surrounding blanks removed: it has no blank at either end and no upper-case letter, and the lower-cased text is the query padded with blanks |
| CitySelection.Filter | TripPlanner/TripPlanner/Features/CitySelection/CitySelectionViewController.swift:126-130 | the kept rows are exactly the matching ones, each kept as often as it occurs (duplicates included), in their original order |
| CitySelection.SearchDidChange | TripPlanner/TripPlanner/Features/CitySelection/CitySelectionViewController.swift:121-133 | an empty query shows the whole catalogue; any other query shows exactly the matching rows, counted with multiplicity, as an order-preserving subsequence; the catalogue never changes |
| CitySelection.RowCount | TripPlanner/TripPlanner/Features/CitySelection/CitySelectionViewController.swift:137-139 | the table has as many rows as there are filtered cities |
| CitySelection.SelectRow | TripPlanner/TripPlanner/Features/CitySelection/CitySelectionViewController.swift:148-151 | the reported text is the title of the tapped row, a row on display |
| CitySelection.SelectionIsCatalogued | TripPlanner/TripPlanner/Features/CitySelection/CitySelectionViewController.swift:121-151 | whatever was typed, a tapped row reports a catalogue city's title |
| CitySelection.QueryIgnoresPaddingAndCase | TripPlanner/TripPlanner/Features/CitySelection/CitySelectionViewController.swift:122-129 | search texts that differ only by surrounding blanks or by letter case give the same query and the same rows |
| CitySelection.BlankSearchResets | TripPlanner/TripPlanner/Features/CitySelection/CitySelectionViewController.swift:122-124 | a blank-only or missing search text brings back the full catalogue |
| CitySelection.NigerianRowsKept | TripPlanner/TripPlanner/Features/CitySelection/CitySelectionViewController.swift:126-130 | searching for " NG " keeps every row whose country code is "NG" |
| CitySelection.LagosRowsBothMatch | TripPlanner/TripPlanner/Features/CitySelection/CitySelectionViewController.swift:55-62 | both "Lagos, Nigeria" rows survive a search for " NG " |
| CitySelection.LagosRowsIndistinguishable | TripPlanner/TripPlanner/Features/CitySelection/CitySelectionViewController.swift:57-59 | the two Lagos rows differ, yet tapping either reports the same title |
| DateSelection.Load | TripPlanner/TripPlanner/Features/DateSelection/DateSelectionViewController.swift:128-135 | the initial pickers are consistent: start ≥ today, end ≥ start, the start minimum is today and the end minimum is the start; each date is either as given or raised to its bound; a range already satisfying today ≤ start ≤ end is left unchanged |
| DateSelection.PickStart | TripPlanner/TripPlanner/Features/DateSelection/DateSelectionViewController.swift:132-133 | a spin of the start picker leaves the chosen date when it is at or after the start minimum, and the minimum otherwise; nothing else changes |
| DateSelection.PickEnd | TripPlanner/TripPlanner/Features/DateSelection/DateSelectionViewController.swift:134-135 | a spin of the end picker leaves the chosen date when it is at or after the end minimum, and the minimum otherwise; nothing else changes |
| DateSelection.StartDateChanged | TripPlanner/TripPlanner/Features/DateSelection/DateSelectionViewController.swift:235-241 | the start is not changed; the end is raised to the start exactly when it was earlier and is otherwise kept; the end minimum becomes the start |
| DateSelection.EndDateChanged | TripPlanner/TripPlanner/Features/DateSelection/DateSelectionViewController.swift:243-245 | neither date nor minimum changes |
| DateSelection.Choose | TripPlanner/TripPlanner/Features/DateSelection/DateSelectionViewController.swift:251-254 | the reported pair is the current start and end, ordered when the pickers are consistent |
| DateSelection.StepKeepsConsistent | TripPlanner/TripPlanner/Features/DateSelection/DateSelectionViewController.swift:235-245 | any single spin of a picker followed by its handler keeps the pickers consistent |
| DateSelection.ChosenRangeIsOrdered | TripPlanner/TripPlanner/Features/DateSelection/DateSelectionViewController.swift:235-254 | after any sequence of user spins, the chosen range starts at or after the start minimum and ends at or after its start |
| DateSelection.LoadedRangeIsOrdered | TripPlanner/TripPlanner/Features/DateSelection/DateSelectionViewController.swift:128-135 | from the loaded screen, every chosen range satisfies today ≤ start ≤ end |
| TripListView.DaySuffix | TripPlanner/TripPlanner/Features/TripList/TripListView.swift:380-386 | the suffix is one of "st", "nd", "rd" and "th" |
| TripListView.DaySuffixIsEnglish | TripPlanner/TripPlanner/Features/TripList/TripListView.swift:380-386 | for days 1 to 31 the table agrees with the English ordinal rule, so 11, 12 and 13 get "th" |
| TripListView.SuffixOfDayText | TripPlanner/TripPlanner/Features/TripList/TripListView.swift:376-386 | unreadable day text gets "st" (as day 1); readable text gets its day's suffix |
| TripListView.DayTextSuffix | TripPlanner/TripPlanner/Features/TripList/TripListView.swift:376-386 | a day written in decimal gets the English suffix of that day |
| TripListView.SubmitFromCard | TripPlanner/TripPlanner/Features/TripList/TripListView.swift:285-297 | a blank city creates nothing and changes nothing; otherwise the trimmed city is both name and destination, the form's dates are used, and the city field is cleared |
| TripListView.CardIgnoresPadding | TripPlanner/TripPlanner/Features/TripList/TripListView.swift:286 | blanks around the city do not change the trip created from the card |
| TripListView.SubmitFromSheet | TripPlanner/TripPlanner/Features/TripList/TripListView.swift:299-313 | a trip is always created, from the name and destination exactly as typed; both fields are then cleared and the sheet is hidden |
| TripListView.BlankInputPathsDiffer | TripPlanner/TripPlanner/Features/TripList/TripListView.swift:285-313 | on blank input the card creates nothing, while the sheet creates a trip with an empty name |
| TripSheetView.Title | TripPlanner/TripPlanner/Features/TripList/TripSheetView.swift:17-24 | each title is its raw value with the first letter capitalised: same length, a capital first letter that lower-cases to the raw value's first letter, and the same remaining letters |
| TripSheetView.TitlesMatchRawValues | TripPlanner/TripPlanner/Features/TripList/TripSheetView.swift:11-24 | lower-casing a style's title gives its raw value; the case list holds all four styles, each once |
| TripSheetView.RawValue | TripPlanner/TripPlanner/Features/TripList/TripSheetView.swift:11-15 | the raw value of each style is a non-empty run of lower-case letters |
| TripSheetView.RawValuesDistinct | TripPlanner/TripPlanner/Features/TripList/TripSheetView.swift:11-15 | no two styles share a raw value |
| TripSheetView.Initial | TripPlanner/TripPlanner/Features/TripList/TripSheetView.swift:57-60 | a fresh sheet has empty texts, the picker closed and the first style (solo) selected |
| TripSheetView.NextEnabled | TripPlanner/TripPlanner/Features/TripList/TripSheetView.swift:202 | Next is enabled exactly when the name is not all spaces and tabs |
| TripSheetView.SubmitAndDismiss | TripPlanner/TripPlanner/Features/TripList/TripSheetView.swift:217-235 | a trip is created exactly when Next is enabled; its name and destination are the trimmed name; it starts now and ends a week later, or now when the calendar cannot add a week; it has no activities, hotels, flights or image; the sheet is dismissed; otherwise nothing changes |
| TripSheetView.StyleAndDescriptionIgnored | TripPlanner/TripPlanner/Features/TripList/TripSheetView.swift:217-235 | the description, the selected style and the picker's visibility do not affect the created trip |
| TripSheetView.SheetTripIsEncodable | TripPlanner/TripPlanner/Features/TripList/TripSheetView.swift:228-233 | a sheet-created trip can always be encoded and sent |
| TripSheetView.BlankNameKeepsSheet | TripPlanner/TripPlanner/Features/TripList/TripSheetView.swift:218-219 | a blank name creates nothing and leaves the sheet presented |
| TripListViewModel.BeginLoad | TripPlanner/TripPlanner/Features/TripList/TripListViewModel.swift:28-31 | loading starts with the error cleared and the trips kept |
| TripListViewModel.FinishLoad | TripPlanner/TripPlanner/Features/TripList/TripListViewModel.swift:33-42 | on success the fetched list replaces the trips; on failure the trips are kept and the error is recorded; loading ends either way |
| TripListViewModel.LoadTrips | TripPlanner/TripPlanner/Features/TripList/TripListViewModel.swift:28-43 | an uninterrupted load ends either with exactly the fetched trips and no error, or with the old trips and the thrown error |
| TripListViewModel.FirstLoadFailureShowsNoTrips | TripPlanner/TripPlanner/Features/TripList/TripListViewModel.swift:14-43 | from the freshly made view model (no trips, not loading, no error), a failed first load leaves no trips, not loading, and the thrown error recorded |
| TripListViewModel.CreateTrip | TripPlanner/TripPlanner/Features/TripList/TripListViewModel.swift:45-54 | success appends the returned trip after the unchanged earlier ones; failure keeps the trips and records the error; the loading flag is untouched |
| TripListViewModel.DeleteTrip | TripPlanner/TripPlanner/Features/TripList/TripListViewModel.swift:56-68 | an index past the end is a no-op with no request; otherwise the id at that index is sent, and on success exactly that trip is removed with the others keeping their order, while on failure the trips are kept and the error is recorded |
| TripListViewModel.LoadRejected | TripPlanner/TripPlanner/Features/TripList/TripListViewModel.swift:35-41 | through the service, a 404 keeps the old trips and records `invalidResponse` |
| TripListViewModel.CreateAppendsServerCopy | TripPlanner/TripPlanner/Features/TripList/TripListViewModel.swift:48-49 | the appended trip is the server's decoded reply, not the argument |
| TripListViewModel.DeleteIgnoresStatus | TripPlanner/TripPlanner/Features/TripList/TripListViewModel.swift:62-63 | through the service, the trip is removed whatever status the server answers with |
| FlightSelectionViewModel.BeginLoad | TripPlanner/TripPlanner/Features/FlightSelection/FlightSelectionViewModel.swift:28-34 | loading starts with the error cleared, asks for the trip's destination, and keeps flights and selection |
| FlightSelectionViewModel.FinishLoad | TripPlanner/TripPlanner/Features/FlightSelection/FlightSelectionViewModel.swift:35-44 | on success the flights are replaced; on failure they are kept and the error is recorded; loading ends and the selection is untouched |
| FlightSelectionViewModel.Init | TripPlanner/TripPlanner/Features/FlightSelection/FlightSelectionViewModel.swift:21-26 | a new model is already loading, with no flights, error or selection, and has asked for the trip's destination |
| FlightSelectionViewModel.LoadFlights | TripPlanner/TripPlanner/Features/FlightSelection/FlightSelectionViewModel.swift:28-46 | an uninterrupted load through the service stores the fetched flights with no error on success, keeps the old flights and records the thrown error on failure, and keeps the trip and the selection |
| FlightSelectionViewModel.InitQueriesDestination | TripPlanner/TripPlanner/Features/FlightSelection/FlightSelectionViewModel.swift:21-34 | the request a new model makes carries a destination query exactly when the trip's destination is non-empty |
| FlightSelectionViewModel.LoadsKeepSelection | TripPlanner/TripPlanner/Features/FlightSelection/FlightSelectionViewModel.swift:28-46 | any number of loads leaves the selected flight and the trip unchanged |

## Left out

- Networking and concurrency: `URLSession`, `Task`, `@MainActor` and `@Published` are not
  modelled. Each service call is given its outcome, and each view-model task runs to
  completion between its two halves. How tasks in flight interleave is not modelled. For
  example, a delete could finish after the list has been reloaded, and its index would then
  refer to a different trip.
- URL text: the base URL is a constant, and request paths are relative to it. Percent-encoding
  of ids and query values by `appendingPathComponent` and `URLComponents` is not modelled.
  Whether `URLComponents` yields a URL is the input `urlBuilt`.
- Date formatting and calendar arithmetic: the `.iso8601` strategy is the `DateCodec`
  parameter. Fractional seconds are not modelled. `Calendar.startOfDay` is the input `today`,
  and the week added by the trip sheet is the input `weekLater`. The medium and "d MMMM yyyy"
  `DateFormatter` texts are not modelled; only the day suffix is.
- Foundation's texts for decoding, encoding and transport errors: `LocalizedDescription` takes
  them as the parameter `other`.
- Text is ASCII only. Unicode whitespace, case mapping beyond A–Z and grapheme clusters are not
  modelled.
- `UUID().uuidString` and `Date()` are the parameters `id` and `now`.
- The `let` immutability of `id` and `airline`: Dafny values are immutable throughout.
- `Identifiable`, layout, styling, navigation, the coordinator, close buttons and dismissal
  animations are presentation only.
- TripService.SendRequest: the JSON body's raw bytes are not modelled. A body that is not JSON
  at all is `None`, which decodes as `DataCorrupted`. Swift's real error for it also carries the
  underlying parser error.
- TripListViewModel.DeleteTrip: the index is a `nat`. The guard in `deleteTrip(at:)` checks only
  the upper bound, so a negative index traps at `trips[index]`. The model excludes negative indices
  rather than modelling the trap.
- DateSelection.PickStart, DateSelection.PickEnd: `UIDatePicker` is taken never to hold a date
  below its minimum. The handlers themselves do not enforce that.
