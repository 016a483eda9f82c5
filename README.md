# Mapper earthquake loader — Dafny model

The Mapper app fetches a list of earthquake records from one of two fixed
endpoints, parses each element of the JSON array into an `Earthquake`, keeps
the records in the shared `DataStore`, and posts a "refreshing" notification
when a load starts and a "loaded" notification when a successful response
has been handled. The map layer draws a pin per earthquake, coloured by magnitude.

This project models that core, all of it in `Mapper/DataStore.swift`:

- `wrappers.dfy` (module `Wrappers`): the `Option` datatype.
- `quakes.dfy` (module `Quakes`): the `Earthquake` record and the loader.
  - The pure pieces are functions: the endpoint choice, `arrayValue`, `dateFromString`
    and the parse of one element.
  - What a load does to the loader's state (`LoaderState`: endpoint, list, posted
    notifications) is given by specification functions (`AfterRefresh`,
    `AfterResponse`, `AfterLoad`, `AfterSelect`). The lemmas about loads are
    stated over these functions.
  - The loader itself is the class `DataStore`. Its fields are `currentURL`,
    `earthquakes` and `events` (the notification log). Its methods change
    them in place. The completion handler builds the list with the same
    append loop as the source.
  - Each method's postcondition ties its new state to the matching
    specification function.
- `pins.dfy` (module `Pins`): `pinTintColor` as a function from a magnitude to
  one of six colours.

The inputs the source gets from other code become parameters:
- The network is a function `fetch` from the selected endpoint to its `Response`: `Success` with an optional JSON value, or `Failure`. `LoadData` requests `fetch(currentURL)`.
- Each array element is an `Item` holding the values after per-field coercion.
- The date formatter is a function `DateFormatter` from (format, text) to an optional date.
- The clock reading `NSDate()` is a `now` parameter.

Three consequences of the code that a reader might not expect:

- After a failed request the list is empty. `loadData` clears it
  (`Mapper/DataStore.swift:103`) before it issues the request, and the
  failure branch (lines 123-124) only logs.
- Overlapping loads do not replace each other's lists. The completion
  handler appends to the store's current list (line 119). If a second load
  starts before the first response arrives, both handlers append to the
  same list, which ends up holding both responses' records
  (`OverlappingLoadsConcatenate`).
- Negative magnitudes are drawn red. No range of the `switch` holds them, so
  they fall to the `default` case (lines 72-73).

## Model

| member | source | states |
|---|---|---|
| `Pins.PinTintColor` | Mapper/DataStore.swift:60-75 | each magnitude gets exactly one colour: green iff in [0,0.5), blue iff in [0.5,1), yellow iff in [1,1.5), magenta iff in [1.5,2), orange iff in [2,3), red iff negative or at least 3 |
| `Pins.PinTintColorMonotone` | Mapper/DataStore.swift:62-73 | on magnitudes >= 0 the colour's bucket rank (green < blue < yellow < magenta < orange < red) never decreases as the magnitude grows |
| `Pins.NegativeMagnitudeIsRed` | Mapper/DataStore.swift:72-73 | a negative magnitude is red through the default case, ranked above magnitude 0, so monotonicity needs magnitudes >= 0 |
| `Quakes.Records` | Mapper/DataStore.swift:109-119 | the loop yields exactly one record per element, in order; the k-th record copies id, longitude, latitude, mag and place of the k-th element, and its date is the parsed date, or `now` when the date does not parse |
| `Quakes.RecordsAppend` | Mapper/DataStore.swift:109-119 | building the records of two arrays one after the other gives the records of the two arrays joined |
| `Quakes.AfterLoad` | Mapper/DataStore.swift:101-127 | a whole load keeps the selection, leaves exactly the list the selected endpoint's response yields (whatever the list was before), and adds "refreshing", then "loaded" only on success |
| `Quakes.AfterSelect` | Mapper/DataStore.swift:88-95 | after selecting with flag b the large endpoint is in use iff b, and the list and notifications are those of the newly selected endpoint's response |
| `Quakes.SelectThenQuery` | Mapper/DataStore.swift:89-93 | after selecting with flag b and loading, the large endpoint is in use iff b, whatever was selected before |
| `Quakes.LoadKeepsEndpoint` | Mapper/DataStore.swift:101-127 | neither the start of a load, nor its response handler, nor a whole load changes the endpoint selection |
| `Quakes.FailedLoadEmptiesList` | Mapper/DataStore.swift:102-125 | when the selected endpoint's request fails the list is empty and the only notification added is "refreshing" |
| `Quakes.SuccessfulLoadBuildsList` | Mapper/DataStore.swift:106-122 | when the selected endpoint answers with an array, the load adds "refreshing" then exactly one "loaded"; the list has one record per element and the k-th is built from the k-th element |
| `Quakes.SuccessWithoutArray` | Mapper/DataStore.swift:107-122 | a success with no value, or with a value that is not an array, still posts "loaded" and leaves the list empty |
| `Quakes.BadDateKeepsRecord` | Mapper/DataStore.swift:117 | an element whose date does not parse is not dropped: its record is at the same position, with the same id, dated `now` |
| `Quakes.LoadReplacesList` | Mapper/DataStore.swift:103 | for the same selection and network, the list a load leaves never depends on the list before it |
| `Quakes.SwitchAndBack` | Mapper/DataStore.swift:88-95 | selecting large then small runs two loads: after the first, the large endpoint and the list of the large endpoint's response; after the second, the small endpoint and the list of the small endpoint's response; and both loads' notifications in order |
| `Quakes.OverlappingLoadsConcatenate` | Mapper/DataStore.swift:101-127 | two loads started before either response arrives end with both responses' records, first-delivered first (with one clock reading: as if one array had held both), after two "refreshing" then two "loaded" notifications |
| `Quakes.DataStore.constructor` | Mapper/DataStore.swift:82-86 | a new store uses the small endpoint (so `UsingLargeSet()` is false), has an empty list and has posted nothing |
| `Quakes.DataStore.SetUseLargeList` | Mapper/DataStore.swift:88-99 | the new state is the selection followed by a load from the selected endpoint; afterwards `UsingLargeSet()` equals the flag |
| `Quakes.DataStore.LoadData` | Mapper/DataStore.swift:101-104 | the new state is "refreshing" posted, the list cleared, then the response to a request for `currentURL` handled |
| `Quakes.DataStore.HandleResponse` | Mapper/DataStore.swift:105-125 | on success the records of the array's elements are appended in order and "loaded" is posted; on failure nothing changes |

## Left out

- The HTTP request, `validate()` and the asynchronous `responseJSON` callback: the network is the `fetch` argument, and the handler runs when `LoadData` calls it. The URL strings themselves are not modelled, only which of the two endpoints is requested.
- Concurrency: only whole handler runs in some order are modelled (`OverlappingLoadsConcatenate`). Handlers running on different threads at the same time are not.
- SwiftyJSON's coercion (`intValue`, `doubleValue`, `floatValue`, `stringValue` and their defaults for missing fields): each `Item` already holds the coerced values.
- `NSDateFormatter` parsing: the formatter is a function parameter. Only its use with the fixed format `yyyy-MM-dd'T'HH:mm:ss.SSSZ` is modelled.
- `Quakes.Records`: the source reads the clock afresh for each element with a bad date. The model uses one `now` for the whole load.
- Swift `Int`, `Double` and `Float` widths, rounding and NaN: numbers are `int` and `real`, and are only copied or compared.
- `NSNotificationCenter`: posting a notification is appending an `Event` to the store's log.
- Logging the error on failure (`print`).
- The `sharedInstance` singleton and the private initialiser's access control: any number of stores can be built.
- The MapKit and UIKit parts of `EarthquakeAnotation`: coordinate construction, `title` and its number formatting, `subtitle` and `mapItem`. These are UI and foreign calls.
